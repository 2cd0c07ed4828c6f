/** The quota gate before a handler and the meter after it (usage_quota.go, lines 54-95 and
    oplog.go, lines 71-107, 193-206 and 279-305): both work out what is being created and for whom,
    from different forms of the route and from different places a merchant may be named in. */
module GateMeter {
  import opened Text
  import opened Classify
  import opened Route
  import opened GluedRoute
  import opened Usage
  import opened UsagePipeline

  const SKIP_PATH_PARTS: seq<string> :=
    ["/actions", "/logs", "/heartbeat", "/metrics", "/healthz", "/readyz", "/health", "/ping"]

  /** A request as the two of them read it; the handler in between leaves the headers alone. */
  datatype Request = Request(
    method_: string,
    fullPath: string,            // the registered route, empty when there is none
    urlPath: string,
    query: string,
    merchantHeader: string,      // MerchantID
    tenantHeader: string,        // X-Tenant-ID
    switchHeader: string,        // X-Merchant-ID
    bodyMerchant: string,
    namespace_: string,
    beforeMerchant: string,      // merchantFromBefore of what the handler left
    respCode: int,
    size: int64)

  predicate SkipOperatePath(fullPath: string, rawPath: string) {
    var p := Lower(fullPath + " " + rawPath);
    exists part | part in SKIP_PATH_PARTS :: Contains(p, part)
  }

  function FirstNonEmpty(values: seq<string>): string {
    if values == [] then ""
    else if Trim(values[0]) != "" then Trim(values[0])
    else FirstNonEmpty(values[1..])
  }

  function KindOfPath(path: string): string {
    UsageKindOf(ClassifyPath(path).resource)
  }

  /** Services all of whose modules are metered. */
  const METERED_SERVICES: set<string> :=
    {"fs", "active", "product", "order", "store", "scm", "device", "feedback", "client", "finance"}

  lemma ResourceOfClass(path: string)
    ensures var c := ClassifyPath(path);
      c == OTHER_CLASS || (c.service in SERVICES && c.resource == LegacyResource(c.service, c.module_))
    ensures ClassifyPath(path).service == "member" ==> ClassifyPath(path).module_ != "address"
  {
    var segs := PathSegments(path);
    var ns := if segs != [] && segs[0] in NAMESPACES then segs[0] else "";
    var body := if ns == "" then segs else segs[1..];
    assert ClassifyPath(path) == ClassifyService(ns, body);
    if body != [] && body[0] !in SERVICES && OrphanService(body[0]).Some? { OrphanFacts(body[0]); }
  }

  /** Which classes are metered, across the classifier's table and the meter's: a member's addresses and
      level are not, and a module of the auth service named like a metered resource is. */
  lemma MeteredExactly(path: string)
    ensures var c := ClassifyPath(path);
      KindOfPath(path) != "" <==>
        || c.service in METERED_SERVICES
        || (c.service == "member" && c.module_ != "addresses" && c.module_ != "level")
        || (c.service == "auth" && c.module_ in METERED)
  {
    ResourceOfClass(path);
    var c := ClassifyPath(path);
    if c != OTHER_CLASS { MeteredResource(c.service, c.module_); }
  }

  lemma MeteredResource(service: string, module_: string)
    requires service in SERVICES && !(service == "member" && module_ == "address")
    ensures UsageKindOf(LegacyResource(service, module_)) != "" <==>
      || service in METERED_SERVICES
      || (service == "member" && module_ != "addresses" && module_ != "level")
      || (service == "auth" && module_ in METERED)
  {
  }

  // ----- the gate -----

  function GatePath(r: Request): string {
    if r.fullPath == "" then r.urlPath else r.fullPath
  }

  function GateMerchant(r: Request): string {
    FirstNonEmpty([r.merchantHeader, r.tenantHeader, r.switchHeader, r.merchantHeader])
  }

  /** The tenant and kind the gate asks the quota service about, if it asks at all. */
  function GateQuestion(r: Request): Option<(string, string)> {
    if r.method_ != "POST" || SkipOperatePath(GatePath(r), r.urlPath) || KindOfPath(GatePath(r)) == ""
       || ActionFromRequest(r.method_, GatePath(r), r.query) != "create" || SkipUsageMerchant(GateMerchant(r))
    then None
    else Some((GateMerchant(r), KindOfPath(GatePath(r))))
  }

  /** allowQuotaOrAbort; `answer` is the quota service's, which fails open. */
  method AllowQuotaOrAbort(r: Request, answer: bool) returns (allowed: bool, asked: Option<(string, string)>)
    ensures asked == GateQuestion(r)
    ensures allowed <==> asked.None? || answer
  {
    allowed, asked := true, None;
    if r.method_ != "POST" {
      return;
    }
    var fullPath := r.fullPath;
    if fullPath == "" {
      fullPath := r.urlPath;
    }
    if SkipOperatePath(fullPath, r.urlPath) {
      return;
    }
    var kind := UsageKindOf(ClassifyPath(fullPath).resource);
    if kind == "" {
      return;
    }
    if ActionFromRequest(r.method_, fullPath, r.query) != "create" {
      return;
    }
    var merchantID := FirstNonEmpty([r.merchantHeader, r.tenantHeader, r.switchHeader, r.merchantHeader]);
    if SkipUsageMerchant(merchantID) {
      return;
    }
    asked := Some((merchantID, kind));
    allowed := answer;
  }

  // ----- the meter -----

  function MeterPath(r: Request): string {
    if StripRoute(r.fullPath) == "" then r.urlPath else StripRoute(r.fullPath)
  }

  function MeterMerchant(r: Request): string {
    var m := FirstNonEmpty(
      [r.merchantHeader, r.tenantHeader, r.switchHeader, r.merchantHeader, r.bodyMerchant, r.namespace_]);
    var deletes := ActionFromRequest(r.method_, MeterPath(r), r.query) == "delete";
    if (SkipUsageMerchant(m) || deletes) && r.beforeMerchant != "" then r.beforeMerchant else m
  }

  function MeteredOperation(r: Request): Operation {
    Operation(ClassifyPath(MeterPath(r)).resource, ActionFromRequest(r.method_, MeterPath(r), r.query),
              r.respCode, r.size, MeterMerchant(r), r.beforeMerchant)
  }

  /** The methods whose requests are saved. */
  const SAVED_METHODS: set<string> := {"POST", "PUT", "PATCH", "DELETE"}

  /** The usage event of a request that got past the gate. */
  function MeterEvent(r: Request): Option<UsageEvent> {
    if r.method_ !in SAVED_METHODS || SkipOperatePath(r.fullPath, r.urlPath) then None
    else EventOf(MeteredOperation(r))
  }

  /** A creation is metered, as this event. */
  predicate Creates(r: Request, e: UsageEvent) {
    MeterEvent(r) == Some(e) && e.delta == 1
  }

  // ----- agreement -----

  /** Routes on which stripping the id parameters is harmless: nothing is glued to a part that is not a
      parameter, no parameter is cut where the action could read an assignment, and something is left. */
  predicate AgreeableRoute(r: Request) {
    && KeepsSegments(Split(r.fullPath, '/'))
    && ('=' in r.fullPath ==> PlainRoute(r.fullPath))
    && (StripRoute(r.fullPath) == "" ==> r.fullPath == "")
  }

  /** Routes whose id parameters are whole and that keep something are agreeable. */
  lemma PlainIsAgreeable(r: Request)
    requires PlainRoute(r.fullPath) && (StripRoute(r.fullPath) == "" ==> r.fullPath == "")
    ensures AgreeableRoute(r)
  {
    PlainKeepsSegments(r.fullPath);
  }

  lemma PathsAgree(r: Request)
    requires AgreeableRoute(r)
    ensures ClassifyPath(MeterPath(r)) == ClassifyPath(GatePath(r))
    ensures ActionFromRequest(r.method_, MeterPath(r), r.query) == ActionFromRequest(r.method_, GatePath(r), r.query)
  {
    KeptClass(r.fullPath);
    if '=' in r.fullPath {
      StrippedAction(r.method_, r.fullPath, r.query);
    } else {
      KeptAction(r.method_, r.fullPath, r.query);
    }
  }

  /** On a route that is stripped away the gate never asks, and the meter reads the address instead. */
  lemma EmptiedRouteUnasked(r: Request)
    requires r.fullPath != "" && StripRoute(r.fullPath) == ""
    ensures GateQuestion(r).None? && MeterPath(r) == r.urlPath
  {
    EmptiedRoute(r.fullPath);
    assert UsageKindOf(OTHER_CLASS.resource) == "";
  }

  lemma {:induction false} FirstNonEmptyPrefix(xs: seq<string>, ys: seq<string>)
    ensures FirstNonEmpty(xs) != "" ==> FirstNonEmpty(xs + ys) == FirstNonEmpty(xs)
    ensures FirstNonEmpty(xs) == "" ==> FirstNonEmpty(xs + ys) == FirstNonEmpty(ys)
    decreases |xs|
  {
    if xs == [] {
      assert xs + ys == ys;
    } else {
      assert (xs + ys)[1..] == xs[1..] + ys;
      FirstNonEmptyPrefix(xs[1..], ys);
    }
  }

  lemma MerchantsAgree(r: Request)
    requires !SkipUsageMerchant(GateMerchant(r))
    ensures ActionFromRequest(r.method_, MeterPath(r), r.query) != "delete" ==> MeterMerchant(r) == GateMerchant(r)
  {
    var xs := [r.merchantHeader, r.tenantHeader, r.switchHeader, r.merchantHeader];
    FirstNonEmptyPrefix(xs, [r.bodyMerchant, r.namespace_]);
    assert xs + [r.bodyMerchant, r.namespace_]
        == [r.merchantHeader, r.tenantHeader, r.switchHeader, r.merchantHeader, r.bodyMerchant, r.namespace_];
    TrimFacts("");
  }

  lemma SkipOnOneSide(x: string, y: string, part: string)
    requires part != "" && ' ' !in part
    ensures Contains(Lower(x + " " + y), part) <==> Contains(Lower(x), part) || Contains(Lower(y), part)
  {
    LowerConcat(x + " ", y);
    LowerConcat(x, " ");
    assert Lower(" ") == [' '];
    ContainsAcross(Lower(x), ' ', Lower(y), part);
  }

  /** The middleware and the gate leave out the same paths. */
  lemma SkipsAgree(r: Request)
    ensures SkipOperatePath(GatePath(r), r.urlPath) <==> SkipOperatePath(r.fullPath, r.urlPath)
  {
    if r.fullPath == "" {
      forall part | part in SKIP_PATH_PARTS
        ensures Contains(Lower(r.urlPath + " " + r.urlPath), part) <==> Contains(Lower("" + " " + r.urlPath), part)
      {
        SkipOnOneSide(r.urlPath, r.urlPath, part);
        SkipOnOneSide("", r.urlPath, part);
        assert Lower("") == "";
      }
    }
  }

  /** Among the methods that are saved only POST creates. */
  lemma CreateIsPost(method_: string, path: string, query: string)
    requires method_ in SAVED_METHODS && ActionFromRequest(method_, path, query) == "create"
    ensures method_ == "POST"
  {
    assert Upper("PUT") == "PUT" && Upper("PATCH") == "PATCH" && Upper("DELETE") == "DELETE";
  }

  lemma CreationFacts(r: Request, e: UsageEvent)
    requires AgreeableRoute(r) && Creates(r, e)
    ensures r.method_ == "POST" && r.respCode < 400
    ensures e.kind == KindOfPath(GatePath(r)) && ActionFromRequest(r.method_, GatePath(r), r.query) == "create"
  {
    PathsAgree(r);
    CreateIsPost(r.method_, MeterPath(r), r.query);
  }

  /** Every plus one the meter records is for the kind the gate worked out, and for the gate's
      merchant when that one is billable: then it is what the gate asked about. */
  lemma MeterFollowsGate(r: Request, e: UsageEvent)
    requires AgreeableRoute(r)
    ensures Creates(r, e) ==>
      && e.kind == KindOfPath(GatePath(r)) && ActionFromRequest(r.method_, GatePath(r), r.query) == "create"
      && (!SkipUsageMerchant(GateMerchant(r)) ==>
           e.merchant == GateMerchant(r) && GateQuestion(r) == Some((e.merchant, e.kind)))
  {
    if Creates(r, e) {
      CreationFacts(r, e);
      PathsAgree(r);
      SkipsAgree(r);
      if !SkipUsageMerchant(GateMerchant(r)) { MerchantsAgree(r); }
    }
  }

  /** Conversely, whatever the gate asked about is metered once the request succeeds. */
  lemma GateIsMetered(r: Request, merchant: string, kind: string)
    requires AgreeableRoute(r) && r.respCode < 400
    requires GateQuestion(r) == Some((merchant, kind))
    ensures MeterEvent(r).Some?
    ensures var e := MeterEvent(r).value; e.merchant == merchant && e.kind == kind && e.delta == 1
  {
    PathsAgree(r);
    SkipsAgree(r);
    MerchantsAgree(r);
  }

  /** The merchant the meter falls back on when the gate's headers name none that is billed. */
  predicate BilledElsewhere(r: Request) {
    || (GateMerchant(r) == "" && !SkipUsageMerchant(FirstNonEmpty([r.bodyMerchant, r.namespace_])))
    || !SkipUsageMerchant(r.beforeMerchant)
  }

  /** A successful creation of something metered whose merchant no header names. */
  predicate Unasked(r: Request) {
    && r.method_ == "POST" && r.respCode < 400
    && !SkipOperatePath(r.fullPath, r.urlPath) && KindOfPath(GatePath(r)) != ""
    && ActionFromRequest(r.method_, GatePath(r), r.query) == "create"
    && SkipUsageMerchant(GateMerchant(r)) && BilledElsewhere(r)
  }

  lemma MeterMerchantUnasked(r: Request)
    requires SkipUsageMerchant(GateMerchant(r))
    requires ActionFromRequest(r.method_, MeterPath(r), r.query) == "create"
    ensures !SkipUsageMerchant(BilledTo(MeterMerchant(r), r.beforeMerchant)) <==> BilledElsewhere(r)
  {
    var xs, ys := [r.merchantHeader, r.tenantHeader, r.switchHeader, r.merchantHeader], [r.bodyMerchant, r.namespace_];
    FirstNonEmptyPrefix(xs, ys);
    assert xs + ys
        == [r.merchantHeader, r.tenantHeader, r.switchHeader, r.merchantHeader, r.bodyMerchant, r.namespace_];
    TrimFacts("");
  }

  /** On an agreeable route a creation is metered that the gate was not asked about exactly when the
      headers name no billable merchant but the body, the namespace or the before document does. */
  lemma UnaskedIff(r: Request)
    requires AgreeableRoute(r)
    ensures (exists e :: Creates(r, e)) && GateQuestion(r).None? <==> Unasked(r)
  {
    PathsAgree(r);
    SkipsAgree(r);
    if MeterEvent(r).Some? && Creates(r, MeterEvent(r).value) {
      CreationFacts(r, MeterEvent(r).value);
    }
    if SkipUsageMerchant(GateMerchant(r)) && ActionFromRequest(r.method_, MeterPath(r), r.query) == "create" {
      MeterMerchantUnasked(r);
    }
    if Unasked(r) {
      assert MeterEvent(r).Some?;
      assert Creates(r, MeterEvent(r).value);
    }
  }

  /** On a route that is stripped away the gate is never asked, and a creation is metered exactly when the
      address, not the route, says so and a billable merchant is named anywhere. */
  lemma EmptiedRouteIff(r: Request)
    requires r.fullPath != "" && StripRoute(r.fullPath) == ""
    ensures GateQuestion(r).None?
    ensures (exists e :: Creates(r, e)) <==>
      && r.method_ == "POST" && r.respCode < 400
      && !SkipOperatePath(r.fullPath, r.urlPath) && KindOfPath(r.urlPath) != ""
      && ActionFromRequest(r.method_, r.urlPath, r.query) == "create"
      && (SkipUsageMerchant(GateMerchant(r)) ==> BilledElsewhere(r))
  {
    EmptiedRouteUnasked(r);
    if ActionFromRequest(r.method_, r.urlPath, r.query) == "create" {
      if r.method_ in SAVED_METHODS { CreateIsPost(r.method_, r.urlPath, r.query); }
      if SkipUsageMerchant(GateMerchant(r)) { MeterMerchantUnasked(r); } else { MerchantsAgree(r); }
      if MeterEvent(r).Some? { assert Creates(r, MeterEvent(r).value); }
    }
  }

  /** OperateLogMiddleware, up to the saved row: the gate, the handler, the meter. `answer` is the quota
      service's; nothing is metered of a request the gate refused, and of those it let through every
      creation was approved for the very merchant and kind it is metered for, or was not asked about
      because no header names a billable merchant. */
  method OperateLog(r: Request, db: bool, answer: bool)
    returns (handled: bool, asked: Option<(string, string)>, event: Option<UsageEvent>)
    ensures handled <==> asked.None? || answer
    ensures event == if db && handled then MeterEvent(r) else None
    ensures AgreeableRoute(r) && event.Some? && event.value.delta == 1 ==>
      if asked.None? then Unasked(r) else answer && asked == Some((event.value.merchant, event.value.kind))
    ensures AgreeableRoute(r) && asked.Some? && answer && r.respCode < 400 ==>
      event.Some? && event.value.delta == 1 && asked == Some((event.value.merchant, event.value.kind))
  {
    handled, asked, event := true, None, None;
    if r.method_ == "GET" || r.method_ == "HEAD" || r.method_ == "OPTIONS" {
      return;
    }
    if !db || SkipOperatePath(r.fullPath, r.urlPath) {
      return;
    }
    handled, asked := AllowQuotaOrAbort(r, answer);
    if handled && r.method_ in SAVED_METHODS {
      event := EventOf(MeteredOperation(r));
    }
    if AgreeableRoute(r) {
      if asked.Some? && r.respCode < 400 {
        GateIsMetered(r, asked.value.0, asked.value.1);
      }
      if event.Some? && event.value.delta == 1 {
        assert Creates(r, event.value);
        MeterFollowsGate(r, event.value);
        UnaskedIff(r);
      }
    }
  }
}
