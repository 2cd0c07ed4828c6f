/** Who is super-admin at the end of a middleware chain, and what a bearer token with a merchant
    guarantees (user.go, lines 127-160; tenant.go, lines 81-131; JWTAuthMiddleware.go, lines 83-113). */
module TenantPrivilege {
  import opened Text
  import opened Tenant
  import opened TenantChain

  /** A step that would make a request from this host super-admin. */
  predicate Grants(m: Middleware, host: string, cfg: Settings) {
    m.Jwt? && m.login.Some? && CanSwitchMerchant(m.login.value, cfg) && IsSuperAdminHost(host, cfg)
  }

  /** A step that decides anew whether the request is super-admin. */
  predicate Decides(m: Middleware) {
    m.Bind? || (m.Jwt? && m.login.Some?)
  }

  lemma StepSuperAdmin(r: Req, m: Middleware, cfg: Settings)
    ensures IsSuperAdmin(Step(r, m, cfg)) <==>
      if Decides(m) then Grants(m, RequestAdminHost(r, cfg), cfg) else IsSuperAdmin(r)
  {
  }

  /** Step `i` was reached, makes the request super-admin, and no step reached later decides again. */
  predicate GrantedAt(r: Req, chain: seq<Middleware>, i: nat, cfg: Settings) {
    && i < |chain| && Grants(chain[i], RequestAdminHost(r, cfg), cfg) && !Run(r, chain[..i], cfg).aborted
    && forall j | i < j < |chain| :: Decides(chain[j]) ==> Run(r, chain[..j], cfg).aborted
  }

  lemma RunSnoc(r: Req, chain: seq<Middleware>, cfg: Settings)
    requires chain != []
    ensures var mid := Run(r, chain[..|chain| - 1], cfg);
      Run(r, chain, cfg) == if mid.aborted then mid else Step(mid, chain[|chain| - 1], cfg)
  {
    var init, last := chain[..|chain| - 1], [chain[|chain| - 1]];
    assert init + last == chain;
    RunConcat(r, init, last, cfg);
    var mid := Run(r, init, cfg);
    assert last[1..] == [];
    assert Run(Step(mid, last[0], cfg), [], cfg) == Step(mid, last[0], cfg);
  }

  lemma GrantSnoc(r: Req, chain: seq<Middleware>, i: nat, cfg: Settings)
    requires chain != [] && i < |chain| - 1
    ensures var init := chain[..|chain| - 1];
      GrantedAt(r, chain, i, cfg) <==>
        GrantedAt(r, init, i, cfg) && (Decides(chain[|chain| - 1]) ==> Run(r, init, cfg).aborted)
  {
    var init := chain[..|chain| - 1];
    forall j | 0 <= j <= |init|
      ensures chain[..j] == init[..j]
    {
    }
    assert init[..|init|] == init;
    assert forall j :: 0 <= j < |init| ==> chain[j] == init[j];
  }

  /** One more step after `init`: earlier grants stand unless it decides anew, and it may grant itself. */
  lemma GrantsAfterStep(r: Req, init: seq<Middleware>, m: Middleware, cfg: Settings)
    ensures var chain, mid := init + [m], Run(r, init, cfg);
      (exists i: nat :: GrantedAt(r, chain, i, cfg)) <==>
        if mid.aborted || !Decides(m) then exists i: nat :: GrantedAt(r, init, i, cfg)
        else Grants(m, RequestAdminHost(r, cfg), cfg)
  {
    var chain, n := init + [m], |init|;
    assert chain[..n] == init && chain[n] == m;
    if i: nat :| GrantedAt(r, init, i, cfg) {
      GrantSnoc(r, chain, i, cfg);
    }
    if i: nat :| GrantedAt(r, chain, i, cfg) && i < n {
      GrantSnoc(r, chain, i, cfg);
    }
    LastGrant(r, init, m, cfg);
  }

  lemma LastGrant(r: Req, init: seq<Middleware>, m: Middleware, cfg: Settings)
    ensures GrantedAt(r, init + [m], |init|, cfg) <==>
      Grants(m, RequestAdminHost(r, cfg), cfg) && !Run(r, init, cfg).aborted
  {
    assert (init + [m])[..|init|] == init;
  }

  /** A request ends super-admin exactly when the last step that decided it was a JWT step, on the
      super-admin host, for a login that may switch; no header a client sends can stand in for that. */
  lemma {:induction false} SuperAdminIff(r: Req, chain: seq<Middleware>, cfg: Settings)
    requires !IsSuperAdmin(r)
    ensures IsSuperAdmin(Run(r, chain, cfg)) <==> exists i: nat :: GrantedAt(r, chain, i, cfg)
    decreases |chain|
  {
    if chain != [] {
      var n := |chain| - 1;
      var init, m := chain[..n], chain[n];
      assert init + [m] == chain;
      SuperAdminIff(r, init, cfg);
      RunSnoc(r, chain, cfg);
      RunKeepsAdminHost(r, init, cfg);
      StepSuperAdmin(Run(r, init, cfg), m, cfg);
      GrantsAfterStep(r, init, m, cfg);
    }
  }

  // ----- bearer tokens -----

  /** What every later reader sees of a merchant fixed by a bearer token. */
  predicate Pinned(r: Req, m: string) {
    ID(r) == m && r.ctx.merchant == m && !IsSuperAdmin(r)
  }

  lemma BindKeepsPinned(r: Req, m: string, trust: bool)
    requires Pinned(r, m) && m != "" && m != "*"
    ensures Pinned(WrittenWith(r, LoadFromHeader(r), false, false, trust), m)
  {
    TrimFacts(First(r.headers.tenant));
    PlacedID(r, LoadFromHeader(r), false, Decide(r, LoadFromHeader(r), false, false, trust), false);
  }

  lemma {:induction false} BindsKeepPinned(r: Req, m: string, chain: seq<Middleware>, cfg: Settings)
    requires Pinned(r, m) && m != "" && m != "*"
    requires forall i :: 0 <= i < |chain| ==> chain[i].Bind?
    ensures Pinned(Run(r, chain, cfg), m)
    decreases |chain|
  {
    if chain != [] && !r.aborted {
      BindKeepsPinned(r, m, TrustTenantHeader(r, cfg));
      BindsKeepPinned(Step(r, Bind, cfg), m, chain[1..], cfg);
    }
  }

  lemma {:induction false} OpeningNotSuper(r: Req, chain: seq<Middleware>, cfg: Settings)
    requires !IsSuperAdmin(r) && forall i :: 0 <= i < |chain| ==> chain[i].Cors? || chain[i].Bind?
    ensures !IsSuperAdmin(Run(r, chain, cfg))
  {
    SuperAdminIff(r, chain, cfg);
  }

  lemma BearerPins(r: Req, c: Claims, m: string, cfg: Settings)
    requires c.mid.Some? && m == Trim(c.mid.value) && m != "" && m != "*"
    requires !IsSuperAdmin(r) && !BearerStep(r, Some(c), cfg).aborted
    ensures Pinned(BearerStep(r, Some(c), cfg), m)
  {
    TrimFacts(c.mid.value);
  }

  /** A bearer token that names a merchant fixes the tenant: any chain of CORS and binding steps around
      the bearer step either aborts or ends with that merchant for every reader, whatever headers came. */
  lemma BearerIsolation(r: Req, pre: seq<Middleware>, c: Claims, post: seq<Middleware>, cfg: Settings)
    requires forall i :: 0 <= i < |pre| ==> pre[i].Cors? || pre[i].Bind?
    requires forall i :: 0 <= i < |post| ==> post[i].Bind?
    requires !IsSuperAdmin(r)
    requires c.mid.Some? && Trim(c.mid.value) != "" && Trim(c.mid.value) != "*"
    ensures var e, m := Run(r, pre + [Bearer(Some(c))] + post, cfg), Trim(c.mid.value);
      !e.aborted ==>
        && Merchant(e) == m && e.ctx.merchant == m && !IsSuperAdmin(e) && RequirePasses(e)
        && (forall o :: Owns(e, o) <==> Trim(o) == m)
  {
    var m, step := Trim(c.mid.value), [Bearer(Some(c))];
    RunConcat(r, pre, step, cfg);
    RunConcat(r, pre + step, post, cfg);
    OpeningNotSuper(r, pre, cfg);
    var mid := Run(r, pre, cfg);
    var pinned := Run(r, pre + step, cfg);
    RunSnoc(r, pre + step, cfg);
    assert (pre + step)[..|pre|] == pre;
    if !pinned.aborted {
      BearerPins(mid, c, m, cfg);
      BindsKeepPinned(pinned, m, post, cfg);
    }
  }
}
