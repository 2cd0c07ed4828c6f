/** What a request is metered as, said from the request alone: its method, its address and query, and the
    places a merchant may be named in (oplog.go, lines 193-206, 279-307 and 581-610; usage.go, lines
    139-174). */
module MeterLaws {
  import opened Text
  import opened Classify
  import opened Route
  import opened Usage
  import opened UsagePipeline
  import opened GateMeter

  // ----- the action -----

  predicate Either(path: string, query: string, w: string) {
    Contains(Lower(path), w) || Contains(Lower(query), w)
  }

  /** The path or the query, in any letter case, says that the request is something else than its method. */
  predicate Reworded(path: string, query: string) {
    || Either(path, query, "/send") || Either(path, query, "/transfer") || Either(path, query, "ts=")
    || Either(path, query, "/reset") || Either(path, query, "/enable") || Either(path, query, "/disable")
  }

  /** The words come first, in this order, then the method, in any letter case. */
  lemma ActionTable(method_: string, path: string, query: string)
    ensures ActionFromRequest(method_, path, query) ==
      if Either(path, query, "/send") then "notify"
      else if Either(path, query, "/transfer") || Either(path, query, "ts=") then "transfer"
      else if Either(path, query, "/reset") then "reset"
      else if Either(path, query, "/enable") || Either(path, query, "/disable") then "update"
      else if Upper(method_) == "POST" then "create"
      else if Upper(method_) == "PUT" || Upper(method_) == "PATCH" then "update"
      else if Upper(method_) == "DELETE" then "delete"
      else Lower(method_)
  {
    SkipOnOneSide(path, query, "/send");
    SkipOnOneSide(path, query, "/transfer");
    SkipOnOneSide(path, query, "ts=");
    SkipOnOneSide(path, query, "/reset");
    SkipOnOneSide(path, query, "/enable");
    SkipOnOneSide(path, query, "/disable");
  }

  lemma SavedMethodsUpper()
    ensures Upper("POST") == "POST" && Upper("PUT") == "PUT" && Upper("PATCH") == "PATCH" && Upper("DELETE") == "DELETE"
  {
  }

  /** Of a saved request: only POST creates and only DELETE deletes, each unless it is reworded. */
  lemma SavedAction(r: Request)
    requires r.method_ in {"POST", "PUT", "PATCH", "DELETE"}
    ensures var a := ActionFromRequest(r.method_, MeterPath(r), r.query);
      && (a == "create" <==> r.method_ == "POST" && !Reworded(MeterPath(r), r.query))
      && (a == "delete" <==> r.method_ == "DELETE" && !Reworded(MeterPath(r), r.query))
  {
    ActionTable(r.method_, MeterPath(r), r.query);
    SavedMethodsUpper();
  }

  // ----- the merchant -----

  /** The first non-blank value, trimmed. */
  lemma {:induction false} FirstNonEmptyMeaning(values: seq<string>, i: nat)
    requires i <= |values| && forall j :: 0 <= j < i ==> Trim(values[j]) == ""
    requires i < |values| ==> Trim(values[i]) != ""
    ensures FirstNonEmpty(values) == if i < |values| then Trim(values[i]) else ""
    decreases i
  {
    if i > 0 {
      assert forall j :: 0 <= j < i - 1 ==> values[1..][j] == values[j + 1];
      FirstNonEmptyMeaning(values[1..], i - 1);
    }
  }

  function Else(v: string, other: string): string {
    if Trim(v) != "" then Trim(v) else other
  }

  /** The merchant the headers name: MerchantID, then X-Tenant-ID, then X-Merchant-ID. */
  function NamedByHeaders(r: Request): string {
    Else(r.merchantHeader, Else(r.tenantHeader, Else(r.switchHeader, "")))
  }

  /** The merchant a request names: in its headers, then in the body, then by its namespace. */
  function Named(r: Request): string {
    if NamedByHeaders(r) != "" then NamedByHeaders(r) else Else(r.bodyMerchant, Else(r.namespace_, ""))
  }

  lemma {:induction false} FirstIsElse(values: seq<string>)
    ensures FirstNonEmpty(values) == if values == [] then "" else Else(values[0], FirstNonEmpty(values[1..]))
  {
  }

  lemma HeadersNamed(r: Request)
    ensures GateMerchant(r) == NamedByHeaders(r)
  {
    var a, b, c := r.merchantHeader, r.tenantHeader, r.switchHeader;
    var xs := [a, b, c, a];
    assert xs[1..] == [b, c, a] && [b, c, a][1..] == [c, a] && [c, a][1..] == [a] && [a][1..] == [];
    FirstIsElse(xs);
    FirstIsElse([b, c, a]);
    FirstIsElse([c, a]);
    FirstIsElse([a]);
    FirstIsElse([]);
  }

  lemma RequestNamed(r: Request)
    ensures FirstNonEmpty(
              [r.merchantHeader, r.tenantHeader, r.switchHeader, r.merchantHeader, r.bodyMerchant, r.namespace_])
         == Named(r)
  {
    var xs, ys := [r.merchantHeader, r.tenantHeader, r.switchHeader, r.merchantHeader], [r.bodyMerchant, r.namespace_];
    FirstNonEmptyPrefix(xs, ys);
    assert xs + ys
        == [r.merchantHeader, r.tenantHeader, r.switchHeader, r.merchantHeader, r.bodyMerchant, r.namespace_];
    HeadersNamed(r);
    assert ys[1..] == [r.namespace_] && [r.namespace_][1..] == [];
    FirstIsElse(ys);
    FirstIsElse([r.namespace_]);
    FirstIsElse([]);
  }

  /** Nothing is billed to the blank, to all merchants, to "share" and to "st". */
  predicate Billed(id: string) {
    Trim(id) != "" && Trim(id) != "*" && Trim(id) != "share" && Trim(id) != "st"
  }

  /** A deletion is charged to the merchant of the document that was deleted, when it names one. */
  function DeletionMerchant(r: Request): string {
    if r.beforeMerchant != "" then r.beforeMerchant else Named(r)
  }

  /** A creation is charged to the merchant the request names, when that one is billed. */
  function CreationMerchant(r: Request): string {
    if Billed(Named(r)) || r.beforeMerchant == "" then Named(r) else r.beforeMerchant
  }

  // ----- the events -----

  /** The route without its id parameters, or the address when nothing is left. */
  function MeteredPath(r: Request): string {
    var stripped := RemoveAll(RemoveAll(r.fullPath, "/:_id"), "/:id");
    if stripped == "" then r.urlPath else stripped
  }

  /** A successful request to something that is metered. */
  predicate Metered(r: Request) {
    && r.respCode < 400
    && !SkipOperatePath(r.fullPath, r.urlPath)
    && ClassifyPath(MeteredPath(r)).resource in METERED
    && !Reworded(MeteredPath(r), r.query)
  }

  lemma OperationMerchant(r: Request)
    requires r.method_ in {"POST", "PUT", "PATCH", "DELETE"} && !Reworded(MeterPath(r), r.query)
    requires r.method_ == "POST" || r.method_ == "DELETE"
    ensures BilledTo(MeterMerchant(r), r.beforeMerchant)
         == if r.method_ == "DELETE" then DeletionMerchant(r) else CreationMerchant(r)
  {
    SavedAction(r);
    RequestNamed(r);
  }

  /** The event of a saved operation: one for each successful creation or deletion of something metered. */
  lemma OperationEvent(op: Operation)
    ensures EventOf(op).Some? <==>
      && op.respCode < 400 && (op.action == "create" || op.action == "delete") && op.resource in METERED
      && Billed(BilledTo(op.merchant, op.beforeMerchant))
    ensures EventOf(op).Some? ==> var e := EventOf(op).value;
      && e.delta == (if op.action == "create" then 1 else -1) && e.kind == op.resource
      && e.merchant == BilledTo(op.merchant, op.beforeMerchant)
  {
    TrimFacts("");
    assert "" !in METERED;
  }

  lemma EventMeaning(r: Request)
    requires r.method_ == "POST" || r.method_ == "DELETE"
    ensures var m := if r.method_ == "DELETE" then DeletionMerchant(r) else CreationMerchant(r);
      && (MeterEvent(r).Some? <==> Metered(r) && Billed(m))
      && (MeterEvent(r).Some? ==> var e := MeterEvent(r).value;
           && e.delta == (if r.method_ == "DELETE" then -1 else 1)
           && e.merchant == m && e.kind == ClassifyPath(MeteredPath(r)).resource)
  {
    SavedAction(r);
    OperationEvent(MeteredOperation(r));
    SavedEvent(r);
    if !Reworded(MeterPath(r), r.query) {
      OperationMerchant(r);
    }
  }

  lemma SavedEvent(r: Request)
    requires r.method_ in {"POST", "PUT", "PATCH", "DELETE"}
    ensures MeterEvent(r) == if SkipOperatePath(r.fullPath, r.urlPath) then None else EventOf(MeteredOperation(r))
  {
  }

  /** A creation is metered exactly of a successful POST to something metered that neither path nor query
      rewords, when the request or the before document names a billed merchant; that one is charged. */
  lemma CreationIff(r: Request)
    ensures (exists e :: MeterEvent(r) == Some(e) && e.delta == 1)
       <==> r.method_ == "POST" && Metered(r) && (Billed(Named(r)) || Billed(r.beforeMerchant))
    ensures forall e :: MeterEvent(r) == Some(e) && e.delta == 1 ==>
      e.merchant == CreationMerchant(r) && e.kind == ClassifyPath(MeteredPath(r)).resource
  {
    TrimFacts("");
    if r.method_ == "POST" || r.method_ == "DELETE" {
      EventMeaning(r);
      if MeterEvent(r).Some? { assert MeterEvent(r) == Some(MeterEvent(r).value); }
    } else {
      NoOtherEvent(r);
    }
  }

  /** A deletion is metered exactly of a successful DELETE of something metered that neither path nor query
      rewords; it is charged to the merchant of the before document when it names one. */
  lemma DeletionIff(r: Request)
    ensures (exists e :: MeterEvent(r) == Some(e) && e.delta == -1)
       <==> r.method_ == "DELETE" && Metered(r) && Billed(DeletionMerchant(r))
    ensures forall e :: MeterEvent(r) == Some(e) && e.delta == -1 ==>
      e.merchant == DeletionMerchant(r) && e.kind == ClassifyPath(MeteredPath(r)).resource
  {
    if r.method_ == "POST" || r.method_ == "DELETE" {
      EventMeaning(r);
      if MeterEvent(r).Some? { assert MeterEvent(r) == Some(MeterEvent(r).value); }
    } else {
      NoOtherEvent(r);
    }
  }

  /** No other method is ever metered, PUT and PATCH included. */
  lemma NoOtherEvent(r: Request)
    requires r.method_ != "POST" && r.method_ != "DELETE"
    ensures MeterEvent(r).None?
  {
    if r.method_ in {"PUT", "PATCH"} {
      SavedAction(r);
      OperationEvent(MeteredOperation(r));
      SavedEvent(r);
    }
  }

  // ----- the gate -----

  /** The gate asks exactly about a POST to something metered, by the registered route, that neither route nor
      query rewords and whose headers name a billed merchant. */
  lemma QuestionIff(r: Request)
    ensures var path := if r.fullPath == "" then r.urlPath else r.fullPath;
      GateQuestion(r) ==
        if r.method_ == "POST" && !SkipOperatePath(r.fullPath, r.urlPath) && ClassifyPath(path).resource in METERED
           && !Reworded(path, r.query) && Billed(NamedByHeaders(r))
        then Option.Some((NamedByHeaders(r), ClassifyPath(path).resource)) else Option.None
  {
    GateAction(r);
    HeadersNamed(r);
    SkipsAgree(r);
    assert "" !in METERED;
  }

  lemma GateAction(r: Request)
    ensures r.method_ == "POST" ==>
      (ActionFromRequest(r.method_, GatePath(r), r.query) == "create" <==> !Reworded(GatePath(r), r.query))
  {
    ActionTable(r.method_, GatePath(r), r.query);
    SavedMethodsUpper();
  }

  /** The addresses that are left out, in any letter case. */
  lemma SkippedIff(fullPath: string, urlPath: string)
    ensures SkipOperatePath(fullPath, urlPath) <==>
      || Either(fullPath, urlPath, "/actions") || Either(fullPath, urlPath, "/logs")
      || Either(fullPath, urlPath, "/heartbeat") || Either(fullPath, urlPath, "/metrics")
      || Either(fullPath, urlPath, "/healthz") || Either(fullPath, urlPath, "/readyz")
      || Either(fullPath, urlPath, "/health") || Either(fullPath, urlPath, "/ping")
  {
    forall part | part in SKIP_PATH_PARTS
      ensures Contains(Lower(fullPath + " " + urlPath), part) <==> Either(fullPath, urlPath, part)
    {
      SkipOnOneSide(fullPath, urlPath, part);
    }
    assert SKIP_PATH_PARTS[0] == "/actions" && SKIP_PATH_PARTS[1] == "/logs" && SKIP_PATH_PARTS[2] == "/heartbeat";
    assert SKIP_PATH_PARTS[3] == "/metrics" && SKIP_PATH_PARTS[4] == "/healthz" && SKIP_PATH_PARTS[5] == "/readyz";
    assert SKIP_PATH_PARTS[6] == "/health" && SKIP_PATH_PARTS[7] == "/ping";
  }
}
