/** Whom a request is billed to after its tenant was resolved: the quota gate and the meter read the
    MerchantID header first (usage_quota.go, lines 74-80; oplog.go, lines 293-300; user.go, lines 204-206;
    JWTAuthMiddleware.go, lines 104-113). */
module TenantBilling {
  import opened Text
  import opened Tenant
  import opened TenantChain
  import opened Usage
  import GateMeter

  /** The metered request with the headers that a chain left. */
  function Headed(r: Req, q: GateMeter.Request): GateMeter.Request {
    q.(merchantHeader := First(r.headers.merchant), tenantHeader := First(r.headers.tenant),
       switchHeader := First(r.headers.switcher))
  }

  function GateMerchant(r: Req, q: GateMeter.Request): string {
    GateMeter.GateMerchant(Headed(r, q))
  }

  lemma MerchantHeaderFirst(r: Req, q: GateMeter.Request)
    ensures Trim(First(r.headers.merchant)) != "" ==> GateMerchant(r, q) == Trim(First(r.headers.merchant))
    ensures Trim(First(r.headers.merchant)) == "" && ID(r) != "" ==> GateMerchant(r, q) == ID(r)
  {
    var first, tenant, switcher := First(r.headers.merchant), First(r.headers.tenant), First(r.headers.switcher);
    var rest := [tenant, switcher, first];
    assert [first] + rest == [first, tenant, switcher, first];
    GateMeter.FirstNonEmptyPrefix([first], rest);
    assert GateMeter.FirstNonEmpty([first][1..]) == "";
  }

  /** Over a chain with a verified login that may not switch everything is billed to the login's merchant:
      the gate asks for it, and every creation on an agreeable route is charged to it when it is billed. */
  lemma JwtBilled(r: Req, pre: seq<Middleware>, l: Login, post: seq<Middleware>, cfg: Settings,
                  q: GateMeter.Request, e: UsageEvent)
    requires forall i :: 0 <= i < |pre| ==> pre[i].Cors? || pre[i].Bind?
    requires forall i :: 0 <= i < |post| ==> post[i].Bind?
    requires !Run(r, pre, cfg).aborted && !AllowSwitch(r, l, true, cfg)
    requires Trim(l.merchant) != "" && Trim(l.merchant) != "*"
    ensures var end, m := Run(r, pre + [Jwt(Some(l))] + post, cfg), Trim(l.merchant);
      && GateMerchant(end, q) == m
      && (GateMeter.AgreeableRoute(q) && !SkipUsageMerchant(m) && GateMeter.Creates(Headed(end, q), e) ==>
           e.merchant == m)
  {
    var end, m := Run(r, pre + [Jwt(Some(l))] + post, cfg), Trim(l.merchant);
    TenantIsolation(r, pre, l, post, cfg);
    TrimFacts(l.merchant);
    MerchantHeaderFirst(end, q);
    if GateMeter.AgreeableRoute(q) && !SkipUsageMerchant(m) {
      assert GateMeter.AgreeableRoute(Headed(end, q));
      GateMeter.MeterFollowsGate(Headed(end, q), e);
    }
  }

  /** A bearer step leaves the MerchantID header as the client sent it. */
  lemma BearerKeepsMerchantHeader(r: Req, claims: Option<Claims>, cfg: Settings)
    ensures BearerStep(r, claims, cfg).headers.merchant == r.headers.merchant
  {
  }

  /** So after a bearer token with a merchant a request is billed to that merchant exactly when the MerchantID
      header was blank or named it already. */
  lemma BearerBilledIff(r: Req, c: Claims, cfg: Settings, q: GateMeter.Request)
    requires c.mid.Some? && Trim(c.mid.value) != "" && Trim(c.mid.value) != "*"
    requires !BearerStep(r, Some(c), cfg).aborted
    ensures var end, m := BearerStep(r, Some(c), cfg), Trim(c.mid.value);
      && (GateMerchant(end, q) == m <==> Trim(First(r.headers.merchant)) in {"", m})
      && (Trim(First(r.headers.merchant)) != "" ==> GateMerchant(end, q) == Trim(First(r.headers.merchant)))
  {
    var end := BearerStep(r, Some(c), cfg);
    BearerKeepsMerchantHeader(r, Some(c), cfg);
    BearerTenantID(r, c, cfg);
    MerchantHeaderFirst(end, q);
  }

  lemma BearerTenantID(r: Req, c: Claims, cfg: Settings)
    requires c.mid.Some? && Trim(c.mid.value) != "" && Trim(c.mid.value) != "*"
    requires !BearerStep(r, Some(c), cfg).aborted
    ensures ID(BearerStep(r, Some(c), cfg)) == Trim(c.mid.value)
  {
    TrimFacts(c.mid.value);
  }

  /** A binding step after it puts that right: it copies the tenant into the MerchantID header. */
  lemma BindRestoresBilling(r: Req, m: string, cfg: Settings, q: GateMeter.Request)
    requires ID(r) == m && m != "" && m != "*"
    ensures GateMerchant(Step(r, Bind, cfg), q) == m && ID(Step(r, Bind, cfg)) == m
  {
    var l, trust := LoadFromHeader(r), TrustTenantHeader(r, cfg);
    TrimFacts(First(r.headers.tenant));
    BoundHeaders(r, l, m, trust);
    MerchantHeaderFirst(Step(r, Bind, cfg), q);
  }

  lemma BoundHeaders(r: Req, l: Login, m: string, trust: bool)
    requires ID(r) == m && m != "" && m != "*" && Trim(m) == m
    ensures var w := WrittenWith(r, l, false, false, trust);
      First(w.headers.merchant) == m && ID(w) == m
  {
  }

  /** A request whose MerchantID header names another merchant than the token is billed to that other one. */
  lemma BearerBillsHeader(r: Req, c: Claims, cfg: Settings, q: GateMeter.Request, e: UsageEvent)
    requires c.mid.Some? && Trim(c.mid.value) != "" && Trim(c.mid.value) != "*"
    requires !BearerStep(r, Some(c), cfg).aborted
    requires !SkipUsageMerchant(First(r.headers.merchant)) && Trim(First(r.headers.merchant)) != Trim(c.mid.value)
    ensures var end := BearerStep(r, Some(c), cfg);
      && Merchant(end) == Trim(c.mid.value)
      && (GateMeter.AgreeableRoute(q) && GateMeter.Creates(Headed(end, q), e) ==>
           e.merchant == Trim(First(r.headers.merchant)))
  {
    var end := BearerStep(r, Some(c), cfg);
    BearerBilledIff(r, c, cfg, q);
    BearerTenantID(r, c, cfg);
    TrimFacts(First(r.headers.merchant));
    if GateMeter.AgreeableRoute(q) {
      assert GateMeter.AgreeableRoute(Headed(end, q));
      GateMeter.MeterFollowsGate(Headed(end, q), e);
    }
  }
}
