/** What a login may do and what becomes of the client's headers, said from the request, the login and the
    settings (user.go, lines 143-231; tenant.go, lines 29-131; gateway.go, lines 36-60). */
module TenantLaws {
  import opened Text
  import opened Tenant
  import opened TenantChain
  import opened TenantPrivilege

  // ----- the super-admin host -----

  /** The name a host goes by: without its port, in lower case; blank hosts have none. */
  predicate Names(host: string, name: string, cfg: Settings) {
    if Trim(host) == "" then name == ""
    else name == Lower(match cfg.splitHostPort(Trim(host)) case Some(h) => h case None => Trim(host))
  }

  /** The host that counts: behind a trusted proxy the first one it forwards, else the request's own. */
  predicate Counts(r: Req, host: string, cfg: Settings) {
    var forwarded := Trim(First(r.headers.forwardedHost));
    host == if cfg.trustedProxy && forwarded != "" then Trim(Split(forwarded, ',')[0]) else r.host
  }

  /** It is the configured domain, or the local one where that is allowed. */
  predicate IsConsole(name: string, domain: string, cfg: Settings) {
    name != "" && (name == domain || (cfg.allowLocalhost && name == "super.localhost"))
  }

  /** Marked in the token, or of a configured super merchant. */
  predicate Marked(l: Login, cfg: Settings) {
    || l.superAdmin
    || (Trim(l.merchant) != "" && (Trim(l.merchant) == Trim(cfg.superMerchant)
                                   || exists m :: m in cfg.superMerchants && Trim(m) == Trim(l.merchant)))
  }

  lemma ConsoleHost(r: Req, host: string, name: string, domain: string, cfg: Settings)
    requires Counts(r, host, cfg) && Names(host, name, cfg) && Names(cfg.superDomain, domain, cfg)
    ensures IsSuperAdminHost(RequestAdminHost(r, cfg), cfg) <==> IsConsole(name, domain, cfg)
  {
  }

  lemma MarkedSwitch(l: Login, cfg: Settings)
    ensures CanSwitchMerchant(l, cfg) <==> Marked(l, cfg)
  {
  }

  /** A JWT step makes a request super-admin exactly on the console's host for a marked login. */
  lemma JwtSuperIff(r: Req, l: Login, host: string, name: string, domain: string, cfg: Settings)
    requires Counts(r, host, cfg) && Names(host, name, cfg) && Names(cfg.superDomain, domain, cfg)
    ensures IsSuperAdmin(JwtStep(r, Some(l), cfg)) <==> IsConsole(name, domain, cfg) && Marked(l, cfg)
  {
    ConsoleHost(r, host, name, domain, cfg);
    MarkedSwitch(l, cfg);
    StepSuperAdmin(r, Jwt(Some(l)), cfg);
  }

  /** No chain at all makes a request super-admin on another host, whatever headers came. */
  lemma OtherHostNeverSuper(r: Req, chain: seq<Middleware>, host: string, name: string, domain: string, cfg: Settings)
    requires Counts(r, host, cfg) && Names(host, name, cfg) && Names(cfg.superDomain, domain, cfg)
    requires !IsConsole(name, domain, cfg) && !IsSuperAdmin(r)
    ensures !IsSuperAdmin(Run(r, chain, cfg))
  {
    ConsoleHost(r, host, name, domain, cfg);
    SuperAdminIff(r, chain, cfg);
  }

  /** Nor does any chain whose logins are neither marked nor of a super merchant. */
  lemma UnmarkedNeverSuper(r: Req, chain: seq<Middleware>, cfg: Settings)
    requires !IsSuperAdmin(r)
    requires forall i :: 0 <= i < |chain| && chain[i].Jwt? && chain[i].login.Some? ==>
                           !Marked(chain[i].login.value, cfg)
    ensures !IsSuperAdmin(Run(r, chain, cfg))
  {
    SuperAdminIff(r, chain, cfg);
    if i: nat :| GrantedAt(r, chain, i, cfg) {
      MarkedSwitch(chain[i].login.value, cfg);
      assert false;
    }
  }

  /** Without a trusted proxy no header a client sends bears on it: requests that differ in headers alone end
      every chain with the same flag. */
  lemma {:induction false} HeadersNeverGrant(r: Req, headers: Headers, chain: seq<Middleware>, cfg: Settings)
    requires !cfg.trustedProxy
    requires forall i :: 0 <= i < |chain| ==> !chain[i].Bearer?
    ensures IsSuperAdmin(Run(r.(headers := headers), chain, cfg)) == IsSuperAdmin(Run(r, chain, cfg))
  {
    SameHostSameFlag(r, r.(headers := headers), chain, cfg);
  }

  lemma StepSameHost(r: Req, q: Req, m: Middleware, cfg: Settings)
    requires !cfg.trustedProxy && !m.Bearer?
    requires r.host == q.host && r.options == q.options && r.aborted == q.aborted
    requires r.keys.superAdmin == q.keys.superAdmin
    ensures var s, t := Step(r, m, cfg), Step(q, m, cfg);
      s.host == t.host && s.options == t.options && s.aborted == t.aborted && s.keys.superAdmin == t.keys.superAdmin
  {
    OwnHostCounts(r, cfg);
    OwnHostCounts(q, cfg);
    StepSuperAdmin(r, m, cfg);
    StepSuperAdmin(q, m, cfg);
  }

  lemma OwnHostCounts(r: Req, cfg: Settings)
    requires !cfg.trustedProxy
    ensures RequestAdminHost(r, cfg) == r.host
  {
  }

  lemma {:induction false} SameHostSameFlag(r: Req, q: Req, chain: seq<Middleware>, cfg: Settings)
    requires !cfg.trustedProxy && forall i :: 0 <= i < |chain| ==> !chain[i].Bearer?
    requires r.host == q.host && r.options == q.options && r.aborted == q.aborted
    requires r.keys.superAdmin == q.keys.superAdmin
    ensures IsSuperAdmin(Run(r, chain, cfg)) == IsSuperAdmin(Run(q, chain, cfg))
    decreases |chain|
  {
    if chain != [] && !r.aborted {
      StepSameHost(r, q, chain[0], cfg);
      SameHostSameFlag(Step(r, chain[0], cfg), Step(q, chain[0], cfg), chain[1..], cfg);
    }
  }

  // ----- the tenant header -----

  /** The header may be believed: the gateway's token came with it, or the settings say so. */
  predicate Believed(r: Req, cfg: Settings) {
    || cfg.allowUnverifiedTenant
    || (Trim(cfg.gatewayToken) != "" && Trim(First(r.headers.gatewayToken)) == Trim(cfg.gatewayToken))
  }

  lemma BelievedIff(r: Req, cfg: Settings)
    ensures TrustTenantHeader(r, cfg) <==> Believed(r, cfg)
  {
  }

  /** What the client asks for. */
  function Asked(r: Req): string { Trim(First(r.headers.tenant)) }
  function Switch(r: Req): string { Trim(First(r.headers.switcher)) }

  /** The tenant of a verified login, as every reader sees it. */
  lemma VerifiedTenant(r: Req, l: Login, allow: bool, trust: bool)
    ensures var w, own := WrittenWith(r, l, true, allow, trust), Trim(l.merchant);
      && w.keys.superAdmin == allow
      && NoStar(Trim(w.ctx.merchant)) == Merchant(w)
      && Merchant(w) == NoStar(
           if allow && Switch(r) == "*" then ""
           else if allow && Switch(r) != "" then Switch(r)
           else if !allow && own != "" then own
           else if Asked(r) != "" && (allow || trust) then Asked(r)
           else own)
      && w.ctx.ns == (if allow && NoStar(w.ctx.merchant) == "" then "*" else l.ns)
  {
    TrimFacts(First(r.headers.tenant));
    TrimFacts(First(r.headers.switcher));
    TrimFacts(l.merchant);
    PlacedID(r, l, allow, Decide(r, l, true, allow, trust), StripSwitch(r, true, allow));
  }

  /** The tenant after binding from the headers: X-Tenant-ID, else MerchantID; switching is never permitted. */
  lemma BoundTenant(r: Req, cfg: Settings)
    ensures var w := Step(r, Bind, cfg);
      && !w.keys.superAdmin
      && NoStar(Trim(w.ctx.merchant)) == Merchant(w)
      && Merchant(w) == NoStar(if Asked(r) != "" then Asked(r) else Trim(First(r.headers.merchant)))
  {
    TrimFacts(First(r.headers.tenant));
    TrimFacts(First(r.headers.merchant));
    var l := LoadFromHeader(r);
    PlacedID(r, l, false, Decide(r, l, false, false, TrustTenantHeader(r, cfg)), false);
  }

  /** The whole table on a JWT step, with both permissions said from the request: a permitted switch wins, "*"
      clearing the tenant; else the login's own merchant where switching is not permitted; else a header that
      may be believed; else what the login says. */
  lemma JwtTenant(r: Req, l: Login, host: string, name: string, domain: string, cfg: Settings)
    requires Counts(r, host, cfg) && Names(host, name, cfg) && Names(cfg.superDomain, domain, cfg)
    ensures var e, own := JwtStep(r, Some(l), cfg), Trim(l.merchant);
      var allow := IsConsole(name, domain, cfg) && Marked(l, cfg);
      && IsSuperAdmin(e) == allow
      && NoStar(Trim(e.ctx.merchant)) == Merchant(e)
      && Merchant(e) == NoStar(
           if allow && Switch(r) == "*" then ""
           else if allow && Switch(r) != "" then Switch(r)
           else if !allow && own != "" then own
           else if Asked(r) != "" && (allow || Believed(r, cfg)) then Asked(r)
           else own)
      && e.ctx.ns == (if allow && NoStar(e.ctx.merchant) == "" then "*" else l.ns)
  {
    ConsoleHost(r, host, name, domain, cfg);
    MarkedSwitch(l, cfg);
    BelievedIff(r, cfg);
    VerifiedTenant(r, l, IsConsole(name, domain, cfg) && Marked(l, cfg), Believed(r, cfg));
  }

  // ----- a verified login without a merchant -----

  lemma StepKeepsGateway(r: Req, m: Middleware, cfg: Settings)
    requires m.Cors? || m.Bind?
    ensures Step(r, m, cfg).headers.gatewayToken == r.headers.gatewayToken
  {
  }

  lemma {:induction false} OpeningKeepsGateway(r: Req, chain: seq<Middleware>, cfg: Settings)
    requires forall i :: 0 <= i < |chain| ==> chain[i].Cors? || chain[i].Bind?
    ensures Run(r, chain, cfg).headers.gatewayToken == r.headers.gatewayToken
    decreases |chain|
  {
    if chain != [] && !r.aborted {
      StepKeepsGateway(r, chain[0], cfg);
      OpeningKeepsGateway(Step(r, chain[0], cfg), chain[1..], cfg);
    }
  }

  lemma MerchantlessWritten(r: Req, l: Login)
    requires Trim(l.merchant) == ""
    ensures var w := WrittenWith(r, l, true, false, false);
      ID(w) == "" && (l.merchant == "" ==> w.headers.merchant == r.headers.merchant)
  {
    TrimFacts(First(r.headers.tenant));
    PlacedID(r, l, false, Decide(r, l, true, false, false), StripSwitch(r, true, false));
  }

  /** A verified login without a merchant that may not switch, on a request whose header may not be believed,
      ends without a tenant whatever headers came and whatever CORS and binding steps ran before: nobody is
      super-admin, the guard fails and nothing is owned. The client's MerchantID header is left alone. */
  lemma MerchantlessLogin(r: Req, pre: seq<Middleware>, l: Login, host: string, name: string, domain: string,
                          cfg: Settings)
    requires forall i :: 0 <= i < |pre| ==> pre[i].Cors? || pre[i].Bind?
    requires !Run(r, pre, cfg).aborted && Trim(l.merchant) == "" && !Believed(r, cfg)
    requires Counts(r, host, cfg) && Names(host, name, cfg) && Names(cfg.superDomain, domain, cfg)
    requires !IsConsole(name, domain, cfg) || !l.superAdmin
    ensures var e := Run(r, pre + [Jwt(Some(l))], cfg);
      && ID(e) == "" && Merchant(e) == "" && Trim(e.ctx.merchant) == "" && !IsSuperAdmin(e)
      && !RequirePasses(e) && forall o :: !Owns(e, o)
    ensures l.merchant == "" ==>
      Run(r, pre + [Jwt(Some(l))], cfg).headers.merchant == Run(r, pre, cfg).headers.merchant
  {
    var mid, jwt := Run(r, pre, cfg), [Jwt(Some(l))];
    RunConcat(r, pre, jwt, cfg);
    assert jwt[1..] == [] && Run(mid, jwt, cfg) == JwtStep(mid, Some(l), cfg);
    RunKeepsAdminHost(r, pre, cfg);
    ConsoleHost(r, host, name, domain, cfg);
    MarkedSwitch(l, cfg);
    OpeningKeepsGateway(r, pre, cfg);
    BelievedIff(mid, cfg);
    MerchantlessWritten(mid, l);
    MerchantlessContext(mid, l);
  }

  lemma MerchantlessContext(r: Req, l: Login)
    requires Trim(l.merchant) == ""
    ensures Trim(WrittenWith(r, l, true, false, false).ctx.merchant) == ""
    ensures !WrittenWith(r, l, true, false, false).keys.superAdmin
  {
    TrimFacts("");
  }

  /** What the headers name once they are bound. */
  function BoundTo(r: Req): string {
    NoStar(if Asked(r) != "" then Asked(r) else Trim(First(r.headers.merchant)))
  }

  lemma BindKeepsBound(r: Req, cfg: Settings)
    ensures BoundTo(Step(r, Bind, cfg)) == BoundTo(r)
  {
    TrimFacts(First(r.headers.tenant));
    TrimFacts(First(r.headers.merchant));
    var l := LoadFromHeader(r);
    PlacedID(r, l, false, Decide(r, l, false, false, TrustTenantHeader(r, cfg)), false);
  }

  /** Any number of binding steps, one at least, binds to what the headers named before the first. */
  lemma {:induction false} BindsBind(r: Req, chain: seq<Middleware>, cfg: Settings)
    requires !r.aborted && chain != [] && forall i :: 0 <= i < |chain| ==> chain[i].Bind?
    ensures var e := Run(r, chain, cfg);
      Merchant(e) == BoundTo(r) && NoStar(Trim(e.ctx.merchant)) == BoundTo(r) && !IsSuperAdmin(e)
    decreases |chain|
  {
    BoundTenant(r, cfg);
    BindKeepsBound(r, cfg);
    var w := Step(r, Bind, cfg);
    if |chain| > 1 {
      BindsBind(w, chain[1..], cfg);
    } else {
      assert chain[1..] == [] && Run(w, [], cfg) == w;
    }
  }

  /** So a binding step after such a login takes the merchant from the client's MerchantID header: there is a
      tenant again exactly when that header names one. */
  lemma MerchantlessThenBound(r: Req, pre: seq<Middleware>, l: Login, post: seq<Middleware>, host: string,
                              name: string, domain: string, cfg: Settings)
    requires forall i :: 0 <= i < |pre| ==> pre[i].Cors? || pre[i].Bind?
    requires post != [] && forall i :: 0 <= i < |post| ==> post[i].Bind?
    requires !Run(r, pre, cfg).aborted && l.merchant == "" && !Believed(r, cfg)
    requires Counts(r, host, cfg) && Names(host, name, cfg) && Names(cfg.superDomain, domain, cfg)
    requires !IsConsole(name, domain, cfg) || !l.superAdmin
    ensures var e := Run(r, pre + [Jwt(Some(l))] + post, cfg);
            var sent := NoStar(Trim(First(Run(r, pre, cfg).headers.merchant)));
      && Merchant(e) == sent && !IsSuperAdmin(e)
      && (RequirePasses(e) <==> sent != "")
  {
    assert Trim("") == "";
    MerchantlessLogin(r, pre, l, host, name, domain, cfg);
    var e := Run(r, pre + [Jwt(Some(l))], cfg);
    NotAborted(r, pre, l, cfg);
    RunConcat(r, pre + [Jwt(Some(l))], post, cfg);
    BindsBind(e, post, cfg);
  }

  lemma NotAborted(r: Req, pre: seq<Middleware>, l: Login, cfg: Settings)
    requires !Run(r, pre, cfg).aborted
    ensures !Run(r, pre + [Jwt(Some(l))], cfg).aborted
  {
    var mid, jwt := Run(r, pre, cfg), [Jwt(Some(l))];
    RunConcat(r, pre, jwt, cfg);
    assert jwt[1..] == [] && Run(mid, jwt, cfg) == JwtStep(mid, Some(l), cfg);
  }

  // ----- what else a step leaves -----

  /** A super-admin who views all merchants passes the guard and owns every record; one who switched to a
      merchant owns that merchant's. */
  lemma SwitchedView(r: Req, l: Login, host: string, name: string, domain: string, cfg: Settings, o: string)
    requires Counts(r, host, cfg) && Names(host, name, cfg) && Names(cfg.superDomain, domain, cfg)
    requires IsConsole(name, domain, cfg) && Marked(l, cfg) && Switch(r) != ""
    ensures var e := JwtStep(r, Some(l), cfg);
      && RequirePasses(e)
      && (Owns(e, o) <==> Switch(r) == "*" || Trim(o) == Switch(r))
  {
    JwtTenant(r, l, host, name, domain, cfg);
  }

  /** A switch that is not permitted to a verified login is removed from the request; binding and permitted
      switches leave the header. */
  lemma SwitchHeader(r: Req, l: Login, host: string, name: string, domain: string, cfg: Settings)
    requires Counts(r, host, cfg) && Names(host, name, cfg) && Names(cfg.superDomain, domain, cfg)
    ensures JwtStep(r, Some(l), cfg).headers.switcher
         == if Switch(r) != "" && !(IsConsole(name, domain, cfg) && Marked(l, cfg)) then [] else r.headers.switcher
    ensures Step(r, Bind, cfg).headers.switcher == r.headers.switcher
  {
    ConsoleHost(r, host, name, domain, cfg);
    MarkedSwitch(l, cfg);
  }

  /** The login a request carries after a JWT step is the one that was written, but for the merchant, which is
      the tenant that was settled on, and the super-admin mark, which no header carries. */
  lemma LoginCarried(r: Req, l: Login, cfg: Settings)
    ensures var e := JwtStep(r, Some(l), cfg);
      && LoadFromHeader(e) == l.(merchant := First(e.headers.merchant), superAdmin := false)
      && e.ctx.account == l.account && e.ctx.operator == l.user && VerifiedUserID(e) == l.user
  {
  }

  /** Only the merchant a later reader sees is ever put into the MerchantID header. */
  lemma MerchantHeaderWritten(r: Req, l: Login, verified: bool, cfg: Settings)
    ensures var w := Written(r, l, verified, cfg);
      First(w.headers.merchant) == First(r.headers.merchant) || NoStar(Trim(First(w.headers.merchant))) == Merchant(w)
  {
    var allow, trust := AllowSwitch(r, l, verified, cfg), TrustTenantHeader(r, cfg);
    TrimFacts(First(r.headers.tenant));
    TrimFacts(First(r.headers.switcher));
    PlacedID(r, l, allow, Decide(r, l, verified, allow, trust), StripSwitch(r, verified, allow));
  }

  /** CORS ends an OPTIONS request and otherwise widens the namespace on the console's host; nothing more. */
  lemma CorsMeaning(r: Req, host: string, name: string, domain: string, cfg: Settings)
    requires Counts(r, host, cfg) && Names(host, name, cfg) && Names(cfg.superDomain, domain, cfg)
    ensures var e := CorsStep(r, cfg);
      && (e.aborted <==> r.aborted || r.options)
      && e.ctx.ns == (if !r.options && IsConsole(name, domain, cfg) then "*" else r.ctx.ns)
      && e.headers == r.headers && e.keys == r.keys && e.ctx.merchant == r.ctx.merchant
  {
    ConsoleHost(r, host, name, domain, cfg);
  }

  /** A bearer token passes exactly when its claims are there and it does not name another merchant than the
      header; the tenant is the token's, else a header that may be believed, else none. */
  lemma BearerMeaning(r: Req, c: Claims, cfg: Settings)
    requires !r.aborted
    ensures var e, header := BearerStep(r, Some(c), cfg), NoStar(Asked(r));
      var own := NoStar(if c.mid.Some? then Trim(c.mid.value) else "");
      && (!e.aborted <==>
           && c.sub.Some? && c.sub.value != "" && c.iss.Some? && c.aud.Some? && c.jti.Some?
           && (own == "" || header == "" || own == header))
      && (!e.aborted ==>
           && Merchant(e) == (if own != "" then own else if Believed(r, cfg) then header else "")
           && e.ctx.merchant == Merchant(e) && e.ctx.account == c.sub.value
           && e.headers.switcher == [] && e.keys.superAdmin == r.keys.superAdmin
           && e.keys.claims == r.keys.claims["accountId" := c.sub.value]["iss" := c.iss.value]["aud" := c.aud.value]
                                            ["jti" := c.jti.value])
  {
    TrimFacts(First(r.headers.tenant));
    if c.mid.Some? { TrimFacts(c.mid.value); }
    BelievedIff(r, cfg);
    BearerParts(r, c, cfg);
    if !BearerStep(r, Some(c), cfg).aborted { BearerMeets(r, c, cfg); }
  }

  lemma BearerParts(r: Req, c: Claims, cfg: Settings)
    requires !r.aborted
    ensures !BearerStep(r, Some(c), cfg).aborted <==>
      && c.sub.Some? && c.sub.value != "" && c.iss.Some? && c.aud.Some? && c.jti.Some?
      && BearerTenant(r, c.mid, cfg).Some?
  {
  }

  lemma BearerMeets(r: Req, c: Claims, cfg: Settings)
    requires !r.aborted && !BearerStep(r, Some(c), cfg).aborted
    ensures var e := BearerStep(r, Some(c), cfg);
      && BearerTenant(r, c.mid, cfg).Some?
      && e.ctx.merchant == BearerTenant(r, c.mid, cfg).value && Merchant(e) == e.ctx.merchant
      && e.ctx.account == c.sub.value && e.headers.switcher == [] && e.keys.superAdmin == r.keys.superAdmin
      && c.sub.Some? && c.iss.Some? && c.aud.Some? && c.jti.Some?
      && e.keys.claims == r.keys.claims["accountId" := c.sub.value]["iss" := c.iss.value]["aud" := c.aud.value]
                                       ["jti" := c.jti.value]
  {
    TrimFacts(First(r.headers.tenant));
    if c.mid.Some? { TrimFacts(c.mid.value); }
  }
}
