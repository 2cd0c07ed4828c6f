/** What middleware chains guarantee about the tenant, for all headers, logins and settings. */
module TenantChain {
  import opened Text
  import opened Tenant

  /** The tenant a login has settled on, as every later reader sees it. */
  predicate SettledOn(r: Req, l: Login, m: string) {
    && !r.aborted
    && ID(r) == m
    && First(r.headers.merchant) == m
    && First(r.headers.ns) == l.ns
    && r.ctx.merchant == m
    && r.ctx.ns == l.ns
    && !r.keys.superAdmin
    && VerifiedUserID(r) == l.user
  }

  lemma PlacedID(r: Req, l: Login, allow: bool, d: Decision, strip: bool)
    ensures ID(Placed(r, l, allow, d, strip)) == Trim(Resolved(r, d))
  {
    TrimFacts(First(r.headers.tenant));
  }

  lemma JwtSettles(r: Req, l: Login, trust: bool)
    requires !r.aborted && Trim(l.merchant) != "" && Trim(l.merchant) != "*"
    ensures var w := WrittenWith(r, l, true, false, trust);
      SettledOn(w.(keys := w.keys.(verifiedUser := Some(l.user)), ctx := w.ctx.(verifiedUser := l.user)),
                l, Trim(l.merchant))
  {
    TrimFacts(l.merchant);
    PlacedID(r, l, false, Decide(r, l, true, false, trust), StripSwitch(r, true, false));
  }

  lemma BindKeepsSettled(r: Req, l: Login, m: string, trust: bool)
    requires SettledOn(r, l, m) && m != "" && m != "*"
    ensures SettledOn(WrittenWith(r, LoadFromHeader(r), false, false, trust), l, m)
  {
    TrimFacts(First(r.headers.tenant));
    PlacedID(r, LoadFromHeader(r), false, Decide(r, LoadFromHeader(r), false, false, trust), false);
  }

  lemma {:induction false} BindsKeepSettled(r: Req, l: Login, m: string, chain: seq<Middleware>, cfg: Settings)
    requires SettledOn(r, l, m) && m != "" && m != "*"
    requires forall i :: 0 <= i < |chain| ==> chain[i].Bind?
    ensures SettledOn(Run(r, chain, cfg), l, m)
    decreases |chain|
  {
    if chain != [] {
      BindKeepsSettled(r, l, m, TrustTenantHeader(r, cfg));
      BindsKeepSettled(Step(r, Bind, cfg), l, m, chain[1..], cfg);
    }
  }

  lemma StepKeepsAdminHost(r: Req, m: Middleware, cfg: Settings)
    ensures RequestAdminHost(Step(r, m, cfg), cfg) == RequestAdminHost(r, cfg)
  {
    StepKeepsHostHeaders(r, m, cfg);
  }

  lemma StepKeepsHostHeaders(r: Req, m: Middleware, cfg: Settings)
    ensures Step(r, m, cfg).host == r.host && Step(r, m, cfg).headers.forwardedHost == r.headers.forwardedHost
  {
    match m
    case Bearer(claims) => BearerKeepsHostHeaders(r, claims, cfg);
    case _ =>
  }

  lemma BearerKeepsHostHeaders(r: Req, claims: Option<Claims>, cfg: Settings)
    ensures var e := BearerStep(r, claims, cfg);
      e.host == r.host && e.headers.forwardedHost == r.headers.forwardedHost
  {
  }

  /** No chain touches what decides whether a login may switch. */
  lemma {:induction false} RunKeepsAdminHost(r: Req, chain: seq<Middleware>, cfg: Settings)
    ensures RequestAdminHost(Run(r, chain, cfg), cfg) == RequestAdminHost(r, cfg)
    decreases |chain|
  {
    if chain != [] && !r.aborted {
      StepKeepsAdminHost(r, chain[0], cfg);
      RunKeepsAdminHost(Step(r, chain[0], cfg), chain[1..], cfg);
    }
  }

  lemma {:induction false} RunConcat(r: Req, xs: seq<Middleware>, ys: seq<Middleware>, cfg: Settings)
    ensures Run(r, xs + ys, cfg) == Run(Run(r, xs, cfg), ys, cfg)
    decreases |xs|
  {
    if xs == [] {
      assert xs + ys == ys;
    } else if !r.aborted {
      assert (xs + ys)[1..] == xs[1..] + ys;
      RunConcat(Step(r, xs[0], cfg), xs[1..], ys, cfg);
    }
  }

  lemma SettledMeaning(e: Req, l: Login, m: string)
    requires SettledOn(e, l, m) && m != "" && m != "*"
    ensures RequirePasses(e) && !IsSuperAdmin(e) && Merchant(e) == m
    ensures forall o :: Owns(e, o) <==> Trim(o) == m
  {
  }

  /** A verified login that may not switch fixes the tenant: whatever headers the client sent, and
      whatever CORS and binding steps surround the JWT step, every reader sees the token's merchant,
      namespace and user, and no super-admin. */
  lemma TenantIsolation(r: Req, pre: seq<Middleware>, l: Login, post: seq<Middleware>, cfg: Settings)
    requires forall i :: 0 <= i < |pre| ==> pre[i].Cors? || pre[i].Bind?
    requires forall i :: 0 <= i < |post| ==> post[i].Bind?
    requires !Run(r, pre, cfg).aborted
    requires !AllowSwitch(r, l, true, cfg)
    requires Trim(l.merchant) != "" && Trim(l.merchant) != "*"
    ensures var e, m := Run(r, pre + [Jwt(Some(l))] + post, cfg), Trim(l.merchant);
      && !e.aborted && RequirePasses(e) && !IsSuperAdmin(e)
      && Merchant(e) == m && e.ctx.merchant == m && First(e.headers.merchant) == m
      && e.ctx.ns == l.ns && VerifiedUserID(e) == l.user
      && (forall o :: Owns(e, o) <==> Trim(o) == m)
  {
    var m, mid := Trim(l.merchant), Run(r, pre, cfg);
    RunKeepsAdminHost(r, pre, cfg);
    assert !AllowSwitch(mid, l, true, cfg);
    JwtSettles(mid, l, TrustTenantHeader(mid, cfg));
    var settled := JwtStep(mid, Some(l), cfg);
    assert Run(mid, [Jwt(Some(l))], cfg) == settled;
    BindsKeepSettled(settled, l, m, post, cfg);
    RunConcat(r, pre, [Jwt(Some(l))], cfg);
    RunConcat(r, pre + [Jwt(Some(l))], post, cfg);
    SettledMeaning(Run(settled, post, cfg), l, m);
  }

  // ----- header and context -----

  function Norm(s: string): string {
    NoStar(Trim(s))
  }

  predicate HeaderMatchesContext(r: Req) {
    Norm(First(r.headers.tenant)) == Norm(r.ctx.merchant)
  }

  lemma WrittenMatches(r: Req, l: Login, verified: bool, allow: bool, trust: bool)
    ensures HeaderMatchesContext(WrittenWith(r, l, verified, allow, trust))
  {
    var d, strip := Decide(r, l, verified, allow, trust), StripSwitch(r, verified, allow);
    PlacedID(r, l, allow, d, strip);
    TrimFacts(Resolved(r, d));
  }

  lemma BearerMatches(r: Req, account: string, mid: Option<string>, cfg: Settings)
    requires !BearerAccepted(r, account, mid, cfg).aborted
    ensures HeaderMatchesContext(BearerAccepted(r, account, mid, cfg))
  {
    TrimFacts(First(r.headers.tenant));
    if mid.Some? { TrimFacts(mid.value); }
  }

  /** After a binding step, a JWT step or a bearer step that passes, the tenant header and the
      merchant in the context say the same. */
  lemma HeaderAndContextAgree(r: Req, m: Middleware, cfg: Settings)
    requires !m.Cors? && !r.aborted && !Step(r, m, cfg).aborted
    ensures HeaderMatchesContext(Step(r, m, cfg))
  {
    match m
    case Bind =>
      var l := LoadFromHeader(r);
      WrittenMatches(r, l, false, AllowSwitch(r, l, false, cfg), TrustTenantHeader(r, cfg));
    case Jwt(Some(l)) =>
      WrittenMatches(r, l, true, AllowSwitch(r, l, true, cfg), TrustTenantHeader(r, cfg));
    case Bearer(Some(c)) =>
      var r1 := WithClaim(WithClaim(r, "accountId", c.sub.value), "iss", c.iss.value);
      BearerMatches(WithClaim(WithClaim(r1, "aud", c.aud.value), "jti", c.jti.value), c.sub.value, c.mid, cfg);
  }

  // ----- writing twice -----

  /** The merchant comes from the login as it stands, white space and all. */
  predicate RawFallback(r: Req, l: Login, verified: bool, allow: bool, trust: bool) {
    var header, switcher := Trim(First(r.headers.tenant)), Trim(First(r.headers.switcher));
    && l.merchant != ""
    && !(allow && switcher != "")
    && !(verified && !allow && Trim(l.merchant) != "")
    && !(header != "" && (!verified || allow || trust))
  }

  lemma WrittenKeepsGate(r: Req, l: Login, verified: bool, cfg: Settings)
    ensures var w := Written(r, l, verified, cfg);
      && AllowSwitch(w, l, verified, cfg) == AllowSwitch(r, l, verified, cfg)
      && TrustTenantHeader(w, cfg) == TrustTenantHeader(r, cfg)
  {
    assert RequestAdminHost(Written(r, l, verified, cfg), cfg) == RequestAdminHost(r, cfg);
  }

  lemma WriteTwiceWith(r: Req, l: Login, verified: bool, allow: bool, trust: bool)
    requires allow ==> verified
    ensures var w := WrittenWith(r, l, verified, allow, trust);
      WrittenWith(w, l, verified, allow, trust) == w <==>
        !(RawFallback(r, l, verified, allow, trust) && Trim(l.merchant) != "" && Trim(l.merchant) != l.merchant)
  {
    TrimFacts(First(r.headers.tenant));
    TrimFacts(First(r.headers.switcher));
    TrimFacts(l.merchant);
    var w := WrittenWith(r, l, verified, allow, trust);
    var d, e := Decide(r, l, verified, allow, trust), Decide(w, l, verified, allow, trust);
    if RawFallback(r, l, verified, allow, trust) && Trim(l.merchant) != "" && Trim(l.merchant) != l.merchant {
      assert d == Put(l.merchant) && e == Keep;
    }
  }

  /** Writing the same login twice is the same as writing it once, except when the merchant was taken
      raw from a login whose merchant has white space around a non-blank name. */
  lemma WriteTwiceIff(r: Req, l: Login, verified: bool, cfg: Settings)
    ensures var w := Written(r, l, verified, cfg);
      Written(w, l, verified, cfg) == w <==>
        !(RawFallback(r, l, verified, AllowSwitch(r, l, verified, cfg), TrustTenantHeader(r, cfg))
          && Trim(l.merchant) != "" && Trim(l.merchant) != l.merchant)
  {
    WrittenKeepsGate(r, l, verified, cfg);
    WriteTwiceWith(r, l, verified, AllowSwitch(r, l, verified, cfg), TrustTenantHeader(r, cfg));
  }

  /** The case arises for a JWT login that may switch, on the super-admin host, when the request names no
      merchant: the padded merchant goes raw into the headers, and trimmed when it is written again. */
  lemma PaddedMerchantRewritten(r: Req, l: Login, cfg: Settings)
    requires AllowSwitch(r, l, true, cfg)
    requires Trim(First(r.headers.tenant)) == "" && Trim(First(r.headers.switcher)) == ""
    requires NoStar(Trim(l.merchant)) != "" && Trim(l.merchant) != l.merchant
    ensures var w := Written(r, l, true, cfg);
      && First(w.headers.merchant) == l.merchant
      && First(Written(w, l, true, cfg).headers.merchant) == Trim(l.merchant)
      && Written(w, l, true, cfg) != w
  {
    WriteTwiceIff(r, l, true, cfg);
    WrittenKeepsGate(r, l, true, cfg);
  }

  const PLAIN_SETTINGS := Settings("super", false, "", [], "", false, false, (s: string) => Option<string>.None)
  const NO_HEADERS := Headers([], [], [], [], [], [], [], [], [], [], [], [], [], map[])
  const BARE := Req("super", false, NO_HEADERS, Keys(false, None, map[]), Context("", "", "", "", ""), false)
  const PADDED_LOGIN := Login("", " m", "", "", "", "", "", "", "", true)

  /** Such a request: no headers, the host "super", a super-admin login of merchant " m". */
  lemma PaddedMerchantExists()
    ensures AllowSwitch(BARE, PADDED_LOGIN, true, PLAIN_SETTINGS)
    ensures Written(Written(BARE, PADDED_LOGIN, true, PLAIN_SETTINGS), PADDED_LOGIN, true, PLAIN_SETTINGS)
         != Written(BARE, PADDED_LOGIN, true, PLAIN_SETTINGS)
  {
    TrimFacts("super");
    TrimFacts("m");
    assert " m"[1..] == "m";
    assert Trim(" m") == "m";
    TrimFacts("");
    PaddedMerchantRewritten(BARE, PADDED_LOGIN, PLAIN_SETTINGS);
  }
}
