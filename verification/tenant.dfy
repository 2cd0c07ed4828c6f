/** Tenant resolution: how a login, the client's headers and the settings decide the merchant of a
    request (user.go, lines 105-231; jwt.go, lines 57-94 and 140-146; JWTAuthMiddleware.go, lines
    16-115; tenant.go, lines 28-138; cors.go, lines 29-43; tenantguard/tenant.go, lines 54-109). */
module Tenant {
  import opened Text

  // ----- requests -----

  /** The values of the headers this package reads or writes, and of all others by lower-case name.
      Header names are case-insensitive (section 5.1 of RFC 9110), so one field collects every
      spelling; a header that is not there has no values. */
  datatype Headers = Headers(
    tenant: seq<string>,           // X-Tenant-ID
    switcher: seq<string>,         // X-Merchant-ID
    merchant: seq<string>,         // MerchantID
    ns: seq<string>,               // Namespace
    account: seq<string>,          // AccountID
    user: seq<string>,             // UserID
    userName: seq<string>,
    phone: seq<string>,
    avatar: seq<string>,
    loginType: seq<string>,
    loginLevel: seq<string>,
    forwardedHost: seq<string>,    // X-Forwarded-Host
    gatewayToken: seq<string>,     // X-Gateway-Token
    others: map<string, seq<string>>)

  /** http.Header.Get: the first value, or nothing. */
  function First(values: seq<string>): string {
    if values == [] then "" else values[0]
  }

  /** The gin keys set here. */
  datatype Keys = Keys(superAdmin: bool, verifiedUser: Option<string>, claims: map<string, string>)

  /** The values open4go/model keeps in the request context; absent ones read as "". */
  datatype Context = Context(account: string, ns: string, merchant: string, operator: string, verifiedUser: string)

  datatype Req = Req(
    host: string,
    options: bool,                 // the method is OPTIONS
    headers: Headers,
    keys: Keys,
    ctx: Context,
    aborted: bool)

  datatype Login = Login(
    ns: string, merchant: string, account: string, phone: string, user: string, userName: string,
    avatar: string, loginType: string, loginLevel: string, superAdmin: bool)

  /** Configuration, and the two facts about the peer that lie outside this model. */
  datatype Settings = Settings(
    superDomain: string,
    allowLocalhost: bool,
    superMerchant: string,
    superMerchants: seq<string>,
    gatewayToken: string,
    allowUnverifiedTenant: bool,
    trustedProxy: bool,                        // isTrustedProxy for this peer
    splitHostPort: string -> Option<string>)   // net.SplitHostPort

  // ----- who may switch merchant -----

  function HostnameOnly(host: string, cfg: Settings): string {
    var h := Trim(host);
    if h == "" then ""
    else match cfg.splitHostPort(h)
      case None => Lower(h)
      case Some(name) => Lower(name)
  }

  function RequestAdminHost(r: Req, cfg: Settings): string {
    var forwarded := Trim(First(r.headers.forwardedHost));
    if cfg.trustedProxy && forwarded != "" then Trim(Split(forwarded, ',')[0]) else r.host
  }

  predicate IsSuperAdminHost(host: string, cfg: Settings) {
    var h := HostnameOnly(host, cfg);
    var super := HostnameOnly(cfg.superDomain, cfg);
    h != "" && ((super != "" && h == super) || (cfg.allowLocalhost && h == "super.localhost"))
  }

  predicate CanSwitchMerchant(l: Login, cfg: Settings) {
    var mid := Trim(l.merchant);
    || l.superAdmin
    || (mid != "" && (Trim(cfg.superMerchant) == mid || exists m | m in cfg.superMerchants :: Trim(m) == mid))
  }

  predicate TrustTenantHeader(r: Req, cfg: Settings) {
    var want, got := Trim(cfg.gatewayToken), Trim(First(r.headers.gatewayToken));
    (want != "" && got == want) || cfg.allowUnverifiedTenant
  }

  predicate AllowSwitch(r: Req, l: Login, verified: bool, cfg: Settings) {
    verified && IsSuperAdminHost(RequestAdminHost(r, cfg), cfg) && CanSwitchMerchant(l, cfg)
  }

  // ----- the decision writeIntoHeader takes -----

  // `allow` says that the login may switch merchant here, `trust` that the tenant header may be
  // believed when the login names no merchant.

  /** What becomes of the X-Tenant-ID header. */
  datatype Decision = Keep | Put(t: string) | Drop

  /** Which merchant wins: a permitted switch; else the verified login's own merchant; else the
      client's header where it may be believed; else whatever the login says. */
  function Decide(r: Req, l: Login, verified: bool, allow: bool, trust: bool): Decision {
    var header, switcher := Trim(First(r.headers.tenant)), Trim(First(r.headers.switcher));
    var own := Trim(l.merchant);
    if allow && switcher == "*" then Drop
    else if allow && switcher != "" then Put(switcher)
    else if verified && !allow && own != "" then (if header == own then Keep else Put(own))
    else if header != "" && (!verified || allow || trust) then Keep
    else if l.merchant != "" then Put(l.merchant)
    else if header != "" then Drop
    else Keep
  }

  function Resolved(r: Req, d: Decision): string {
    match d
    case Keep => Trim(First(r.headers.tenant))
    case Put(t) => t
    case Drop => ""
  }

  /** "*" means all merchants and is no merchant. */
  function NoStar(t: string): string {
    if t == "*" then "" else t
  }

  function TenantAfter(h: Headers, d: Decision): seq<string> {
    match d
    case Keep => h.tenant
    case Put(t) => [t]
    case Drop => []
  }

  /** The headers after the login and the decision about its tenant are written down. */
  function HeadersAfter(h: Headers, l: Login, d: Decision, tenant: string, strip: bool): Headers {
    h.(tenant := TenantAfter(h, d),
       switcher := if strip then [] else h.switcher,
       merchant := if NoStar(tenant) != "" then [tenant] else h.merchant,
       ns := [l.ns], account := [l.account], user := [l.user], userName := [l.userName], phone := [l.phone],
       avatar := [l.avatar], loginType := [l.loginType], loginLevel := [l.loginLevel])
  }

  /** The request after the login and the decision about its tenant are written down. */
  function Placed(r: Req, l: Login, allow: bool, d: Decision, strip: bool): Req {
    var tenant := Resolved(r, d);
    r.(headers := HeadersAfter(r.headers, l, d, tenant, strip),
       keys := r.keys.(superAdmin := allow),
       ctx := r.ctx.(account := l.account, ns := if allow && NoStar(tenant) == "" then "*" else l.ns,
                     merchant := NoStar(tenant), operator := l.user))
  }

  /** A switch that is not permitted to a verified login is removed from the request. */
  predicate StripSwitch(r: Req, verified: bool, allow: bool) {
    verified && !allow && Trim(First(r.headers.switcher)) != ""
  }

  function WrittenWith(r: Req, l: Login, verified: bool, allow: bool, trust: bool): Req {
    Placed(r, l, allow, Decide(r, l, verified, allow, trust), StripSwitch(r, verified, allow))
  }

  /** The request after `l.writeIntoHeader(c, verified)`. */
  function Written(r: Req, l: Login, verified: bool, cfg: Settings): Req {
    WrittenWith(r, l, verified, AllowSwitch(r, l, verified, cfg), TrustTenantHeader(r, cfg))
  }

  function LoadFromHeader(r: Req): Login {
    var h := r.headers;
    Login(First(h.ns), First(h.merchant), First(h.account), First(h.phone), First(h.user), First(h.userName),
          First(h.avatar), First(h.loginType), First(h.loginLevel), false)
  }

  // ----- middleware -----

  /** The claims of a bearer token that parsed and is valid; None is a claim that is not a string. */
  datatype Claims = Claims(
    sub: Option<string>,
    iss: Option<string>,
    aud: Option<string>,
    jti: Option<string>,
    mid: Option<string>)

  datatype Middleware =
    | Cors
    | Bind                               // MerchantBindMiddleware
    | Jwt(login: Option<Login>)          // JWTMiddleware; None when cookie, token or payload is bad
    | Bearer(claims: Option<Claims>)     // JWTAuthMiddleware; None when header or token is bad

  function Aborted(r: Req): Req {
    r.(aborted := true)
  }

  function WithClaim(r: Req, name: string, v: string): Req {
    r.(keys := r.keys.(claims := r.keys.claims[name := v]))
  }

  function CorsStep(r: Req, cfg: Settings): Req {
    if r.options then Aborted(r)
    else if IsSuperAdminHost(RequestAdminHost(r, cfg), cfg) then r.(ctx := r.ctx.(ns := "*"))
    else r
  }

  function JwtStep(r: Req, login: Option<Login>, cfg: Settings): Req {
    match login
    case None => Aborted(r)
    case Some(l) =>
      var w := Written(r, l, true, cfg);
      w.(keys := w.keys.(verifiedUser := Some(l.user)), ctx := w.ctx.(verifiedUser := l.user))
  }

  /** The merchant a bearer token and the tenant header agree on; None is a mismatch. */
  function BearerTenant(r: Req, mid: Option<string>, cfg: Settings): Option<string> {
    var own := NoStar(if mid.Some? then Trim(mid.value) else "");
    var header := NoStar(Trim(First(r.headers.tenant)));
    if own != "" then (if header == "" || header == own then Some(own) else None)
    else Some(if TrustTenantHeader(r, cfg) then header else "")
  }

  function BearerAccepted(r: Req, account: string, mid: Option<string>, cfg: Settings): Req {
    match BearerTenant(r, mid, cfg)
    case None => Aborted(r)
    case Some(tenant) =>
      var untrusted := tenant == "" && NoStar(Trim(First(r.headers.tenant))) != "";
      var header := if tenant != "" then [tenant] else if untrusted then [] else r.headers.tenant;
      r.(headers := r.headers.(tenant := header, switcher := []),
         ctx := r.ctx.(merchant := tenant, account := account))
  }

  function BearerStep(r: Req, claims: Option<Claims>, cfg: Settings): Req {
    match claims
    case None => Aborted(r)
    case Some(c) =>
      if c.sub.None? || c.sub.value == "" then Aborted(r) else
      var r1 := WithClaim(r, "accountId", c.sub.value);
      if c.iss.None? then Aborted(r1) else
      var r2 := WithClaim(r1, "iss", c.iss.value);
      if c.aud.None? then Aborted(r2) else
      var r3 := WithClaim(r2, "aud", c.aud.value);
      if c.jti.None? then Aborted(r3) else
      BearerAccepted(WithClaim(r3, "jti", c.jti.value), c.sub.value, c.mid, cfg)
  }

  function Step(r: Req, m: Middleware, cfg: Settings): Req {
    match m
    case Cors => CorsStep(r, cfg)
    case Bind => Written(r, LoadFromHeader(r), false, cfg)
    case Jwt(login) => JwtStep(r, login, cfg)
    case Bearer(claims) => BearerStep(r, claims, cfg)
  }

  /** The chain runs until it ends or a handler aborts. */
  function Run(r: Req, chain: seq<Middleware>, cfg: Settings): Req
    decreases |chain|
  {
    if chain == [] || r.aborted then r else Run(Step(r, chain[0], cfg), chain[1..], cfg)
  }

  // ----- what handlers read -----

  function ID(r: Req): string {
    Trim(First(r.headers.tenant))
  }

  function Merchant(r: Req): string {
    NoStar(ID(r))
  }

  predicate IsSuperAdmin(r: Req) {
    r.keys.superAdmin
  }

  predicate Owns(r: Req, owner: string) {
    if Merchant(r) == "" then IsSuperAdmin(r) else Trim(owner) == ID(r)
  }

  predicate RequirePasses(r: Req) {
    Merchant(r) != "" || IsSuperAdmin(r)
  }

  function VerifiedUserID(r: Req): string {
    if r.keys.verifiedUser.Some? then r.keys.verifiedUser.value else r.ctx.verifiedUser
  }
}
