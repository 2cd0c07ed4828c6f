/** The handlers as they run: each updates the request in place, and is shown to have the effect that
    module Tenant gives it (user.go, lines 134-231; jwt.go, lines 57-94 and 140-146;
    JWTAuthMiddleware.go, lines 16-115; tenantguard/tenant.go, lines 73-109). */
module TenantRequest {
  import opened Text
  import opened Tenant
  import opened TenantChain
  import opened TenantPrivilege

  /** Writing the Namespace header first does not bear on any decision that follows. */
  lemma NamespaceIrrelevant(r: Req, ns: seq<string>, l: Login, verified: bool, cfg: Settings)
    ensures var q := r.(headers := r.headers.(ns := ns));
      && AllowSwitch(q, l, verified, cfg) == AllowSwitch(r, l, verified, cfg)
      && TrustTenantHeader(q, cfg) == TrustTenantHeader(r, cfg)
      && Written(q, l, verified, cfg) == Written(r, l, verified, cfg)
  {
    var q := r.(headers := r.headers.(ns := ns));
    assert RequestAdminHost(q, cfg) == RequestAdminHost(r, cfg);
    NamespaceOverwritten(r, ns, l, verified, AllowSwitch(r, l, verified, cfg), TrustTenantHeader(r, cfg));
  }

  lemma NamespaceOverwritten(r: Req, ns: seq<string>, l: Login, verified: bool, allow: bool, trust: bool)
    ensures WrittenWith(r.(headers := r.headers.(ns := ns)), l, verified, allow, trust)
         == WrittenWith(r, l, verified, allow, trust)
  {
  }

  class GinContext {
    const host: string
    const options: bool
    var headers: Headers
    var keys: Keys
    var ctx: Context
    var aborted: bool

    constructor (r: Req)
      ensures View() == r
    {
      host, options, headers, keys, ctx, aborted := r.host, r.options, r.headers, r.keys, r.ctx, r.aborted;
    }

    function View(): Req
      reads this
    {
      Req(host, options, headers, keys, ctx, aborted)
    }

    /** (*LoginInfo).writeIntoHeader */
    method WriteIntoHeader(l: Login, verified: bool, cfg: Settings)
      modifies this`headers, this`keys, this`ctx
      ensures View() == Written(old(View()), l, verified, cfg)
    {
      NamespaceIrrelevant(View(), [l.ns], l, verified, cfg);
      headers := headers.(ns := [l.ns]);
      var allowSwitch := AllowSwitch(View(), l, verified, cfg);
      var trust := TrustTenantHeader(View(), cfg);
      var tenantId := ChooseTenant(l, verified, allowSwitch, trust);
      RecordLogin(l, allowSwitch, tenantId);
    }

    /** The part of writeIntoHeader that settles the tenant and corrects the client's headers. */
    method ChooseTenant(l: Login, verified: bool, allowSwitch: bool, trust: bool) returns (tenantId: string)
      modifies this`headers
      ensures var d := Decide(old(View()), l, verified, allowSwitch, trust);
        && tenantId == Resolved(old(View()), d)
        && headers == old(headers).(tenant := TenantAfter(old(headers), d),
             switcher := if StripSwitch(old(View()), verified, allowSwitch) then [] else old(headers).switcher)
    {
      tenantId := Trim(First(headers.tenant));
      var switcher := Trim(First(headers.switcher));
      var jwtMerchant := Trim(l.merchant);
      if verified && !allowSwitch {
        if jwtMerchant != "" && tenantId != jwtMerchant {
          tenantId := jwtMerchant;
          headers := headers.(tenant := [tenantId]);
        }
      }
      if verified && !allowSwitch && jwtMerchant == "" && tenantId != "" && !trust {
        tenantId := "";
        headers := headers.(tenant := []);
      }
      if switcher != "" && !allowSwitch {
        switcher := "";
        if verified {
          headers := headers.(switcher := []);
        }
      }

      if allowSwitch && switcher != "" {
        if switcher == "*" {
          tenantId := "";
          headers := headers.(tenant := []);
        } else {
          tenantId := switcher;
          headers := headers.(tenant := [tenantId]);
        }
      } else if tenantId == "" {
        tenantId := l.merchant;
        if tenantId != "" {
          headers := headers.(tenant := [tenantId]);
        }
      }
    }

    /** The part of writeIntoHeader that writes the login and the settled tenant down. */
    method RecordLogin(l: Login, allowSwitch: bool, tenantId: string)
      modifies this`headers, this`keys, this`ctx
      ensures keys == old(keys).(superAdmin := allowSwitch)
      ensures headers == HeadersAfter(old(headers), l, Keep, tenantId, false)
      ensures ctx == old(ctx).(account := l.account, ns := if allowSwitch && NoStar(tenantId) == "" then "*" else l.ns,
                               merchant := NoStar(tenantId), operator := l.user)
    {
      keys := keys.(superAdmin := allowSwitch);
      if tenantId != "" && tenantId != "*" {
        headers := headers.(merchant := [tenantId]);
      }
      headers := headers.(ns := [l.ns], account := [l.account], user := [l.user], userName := [l.userName],
                          phone := [l.phone], avatar := [l.avatar], loginType := [l.loginType],
                          loginLevel := [l.loginLevel]);
      ctx := ctx.(account := l.account, ns := l.ns);
      var merchantKey := tenantId;
      if merchantKey == "*" {
        merchantKey := "";
      }
      ctx := ctx.(merchant := merchantKey, operator := l.user);
      if allowSwitch && merchantKey == "" {
        ctx := ctx.(ns := "*");
      }
    }

    /** checkAuth and setVerifiedUserID; no login means that cookie, token or payload was bad. */
    method CheckAuth(login: Option<Login>, cfg: Settings) returns (ok: bool)
      modifies this
      ensures View() == JwtStep(old(View()), login, cfg)
      ensures ok <==> login.Some?
    {
      if login.None? {
        aborted := true;
        return false;
      }
      WriteIntoHeader(login.value, true, cfg);
      keys := keys.(verifiedUser := Some(login.value.user));
      ctx := ctx.(verifiedUser := login.value.user);
      return true;
    }

    method BindMerchant(cfg: Settings)
      modifies this`headers, this`keys, this`ctx
      ensures View() == Step(old(View()), Bind, cfg)
    {
      var login := LoadFromHeader(View());
      WriteIntoHeader(login, false, cfg);
    }

    method Cors(cfg: Settings)
      modifies this`ctx, this`aborted
      ensures View() == Step(old(View()), Middleware.Cors, cfg)
    {
      if !options && IsSuperAdminHost(RequestAdminHost(View(), cfg), cfg) {
        ctx := ctx.(ns := "*");
      }
      if options {
        aborted := true;
      }
    }

    /** JWTAuthMiddleware from the parsed token on. */
    method BearerAuth(claims: Option<Claims>, cfg: Settings)
      modifies this
      ensures View() == Step(old(View()), Bearer(claims), cfg)
    {
      if claims.None? {
        aborted := true;
        return;
      }
      var c := claims.value;
      if c.sub.None? || c.sub.value == "" {
        aborted := true;
        return;
      }
      keys := keys.(claims := keys.claims["accountId" := c.sub.value]);
      if c.iss.None? {
        aborted := true;
        return;
      }
      keys := keys.(claims := keys.claims["iss" := c.iss.value]);
      if c.aud.None? {
        aborted := true;
        return;
      }
      keys := keys.(claims := keys.claims["aud" := c.aud.value]);
      if c.jti.None? {
        aborted := true;
        return;
      }
      keys := keys.(claims := keys.claims["jti" := c.jti.value]);
      ReconcileTenant(c.sub.value, c.mid, cfg);
    }

    /** The tenant claim against the tenant header. */
    method ReconcileTenant(account: string, mid: Option<string>, cfg: Settings)
      modifies this`headers, this`ctx, this`aborted
      ensures View() == BearerAccepted(old(View()), account, mid, cfg)
    {
      var tenantId := "";
      if mid.Some? {
        tenantId := Trim(mid.value);
      }
      if tenantId == "*" {
        tenantId := "";
      }
      var headerMid := Trim(First(headers.tenant));
      if headerMid == "*" {
        headerMid := "";
      }
      if tenantId != "" && headerMid != "" && tenantId != headerMid {
        aborted := true;
        return;
      }
      if tenantId == "" && headerMid != "" {
        if TrustTenantHeader(View(), cfg) {
          tenantId := headerMid;
        } else {
          headers := headers.(tenant := []);
        }
      }
      if tenantId != "" {
        headers := headers.(tenant := [tenantId]);
      }
      headers := headers.(switcher := []);
      ctx := ctx.(merchant := tenantId, account := account);
    }

    /** tenantguard.Require: aborts unless the request has a merchant or a verified super-admin. */
    method Require()
      modifies this`aborted
      ensures View() == if RequirePasses(old(View())) then old(View()) else Aborted(old(View()))
    {
      if Merchant(View()) == "" && !IsSuperAdmin(View()) {
        aborted := true;
      }
    }

    /** tenantguard.Allow */
    method Allow(owner: string) returns (ok: bool)
      modifies this`aborted
      ensures ok <==> Owns(old(View()), owner)
      ensures View() == if ok then old(View()) else Aborted(old(View()))
    {
      ok := Owns(View(), owner);
      if !ok {
        aborted := true;
      }
    }

    /** One handler of the chain. */
    method Handle(m: Middleware, cfg: Settings)
      modifies this
      ensures View() == Step(old(View()), m, cfg)
    {
      match m
      case Cors => Cors(cfg);
      case Bind => BindMerchant(cfg);
      case Jwt(login) => var ok := CheckAuth(login, cfg);
      case Bearer(claims) => BearerAuth(claims, cfg);
    }

    /** The chain on the one mutable request: each handler runs on what the earlier ones left, until one
        aborts. It ends super-admin exactly when a reached JWT step granted that and none decided anew. */
    method Serve(chain: seq<Middleware>, cfg: Settings)
      modifies this
      ensures View() == Run(old(View()), chain, cfg)
      ensures !old(keys.superAdmin) ==>
        (keys.superAdmin <==> exists i: nat :: GrantedAt(old(View()), chain, i, cfg))
    {
      ghost var start := View();
      var rest := chain;
      while rest != [] && !aborted
        invariant Run(View(), rest, cfg) == Run(start, chain, cfg)
        decreases |rest|
      {
        Handle(rest[0], cfg);
        rest := rest[1..];
      }
      if !start.keys.superAdmin {
        SuperAdminIff(start, chain, cfg);
      }
    }

    /** A whole tenant route: binding, a verified login that may not switch, binding again, the guard, and
        the owner check of one record. It lets through exactly the login's own records, whatever headers the
        request came with, and leaves the login's merchant, namespace and user for the handler. */
    method ServeRecord(pre: seq<Middleware>, l: Login, post: seq<Middleware>, owner: string, cfg: Settings)
      returns (ok: bool)
      requires forall i :: 0 <= i < |pre| ==> pre[i].Cors? || pre[i].Bind?
      requires forall i :: 0 <= i < |post| ==> post[i].Bind?
      requires !Run(View(), pre, cfg).aborted && !AllowSwitch(View(), l, true, cfg)
      requires Trim(l.merchant) != "" && Trim(l.merchant) != "*"
      modifies this
      ensures ok <==> Trim(owner) == Trim(l.merchant)
      ensures aborted <==> !ok
      ensures Trim(First(headers.tenant)) == Trim(l.merchant) && First(headers.merchant) == Trim(l.merchant)
      ensures ctx.merchant == Trim(l.merchant) && ctx.ns == l.ns && !keys.superAdmin
    {
      TenantIsolation(View(), pre, l, post, cfg);
      Serve(pre + [Jwt(Some(l))] + post, cfg);
      Require();
      ok := Allow(owner);
    }
  }
}
