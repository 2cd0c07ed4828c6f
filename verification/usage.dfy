/** Turning an operation into an occupancy delta (usage.go, lines 139-296; oplog.go, lines 193-243):
    which operations count, for whom, and with how many bytes, over the whole of int64. */
module Usage {
  import opened Text
  import opened JsonValue

  const MIN64 := -0x8000_0000_0000_0000
  const MAX64 := 0x7FFF_FFFF_FFFF_FFFF

  type int64 = n: int | MIN64 <= n <= MAX64 witness 0

  /** Two's complement wrap-around. */
  function Wrap64(n: int): int64 {
    var m := n % 0x1_0000_0000_0000_0000;
    if m > MAX64 then m - 0x1_0000_0000_0000_0000 else m
  }

  /** absInt64: the one value without a positive counterpart negates to itself. */
  function AbsInt64(n: int64): int64 {
    var m: int := n;
    if m < 0 then Wrap64(-m) else n
  }

  lemma AbsFacts(n: int64)
    ensures AbsInt64(n) >= 0 <==> n != MIN64
    ensures n != MIN64 ==> AbsInt64(n) == if n < 0 then -n else n
    ensures AbsInt64(MIN64) == MIN64
  {
  }

  /** The dynamic types asInt64 knows; floats and numeric texts come with what the library makes of
      them, None being a parse error. */
  datatype Any =
    | Signed(n: int64)
    | Unsigned(u: nat)
    | Float(truncated: int64)
    | Number(asInt: Option<int64>, asFloat: Option<int64>)
    | Digits(parsed: Option<int64>)
    | Other

  function AsInt64(v: Any): int64 {
    match v
    case Signed(n) => n
    case Unsigned(u) => Wrap64(u)
    case Float(t) => t
    case Number(Some(i), _) => i
    case Number(None, Some(f)) => f
    case Digits(Some(i)) => i
    case _ => 0
  }

  // ----- sizes -----

  const SIZE_KEYS: seq<string> := ["size", "Size", "bytes", "storage_bytes"]

  /** The first positive size among the size keys of the before document; None is no document. */
  function SizeFromJSON(doc: Option<map<string, Any>>): int64 {
    if doc.None? then 0 else FirstSize(doc.value, SIZE_KEYS)
  }

  function FirstSize(m: map<string, Any>, keys: seq<string>): int64 {
    if keys == [] then 0
    else
      var n := AbsInt64(AsInt64(if keys[0] in m then m[keys[0]] else Other));
      if n > 0 then n else FirstSize(m, keys[1..])
  }

  function UsageBytes(fromContext: Option<Any>, before: Option<map<string, Any>>, contentLength: int64): int64 {
    var c := if fromContext.Some? then AbsInt64(AsInt64(fromContext.value)) else 0;
    var s := SizeFromJSON(before);
    if c > 0 then c else if s > 0 then s else AbsInt64(contentLength)
  }

  // ----- events -----

  const METERED: set<string> := {
    "image", "product", "order", "member", "store", "scm", "campaign", "device", "feedback", "client", "finance"
  }

  /** usageKindOf: the kinds are named like their resources. */
  function UsageKindOf(resource: string): string {
    if resource in METERED then resource else ""
  }

  datatype UsageEvent = UsageEvent(merchant: string, kind: string, delta: int64, bytes: int64)

  function UsageFromOperation(resource: string, action: string, respCode: int, contentLength: int64)
    : Option<UsageEvent>
  {
    if respCode >= 400 || (action != "create" && action != "delete") || UsageKindOf(resource) == "" then None
    else
      var n := AbsInt64(contentLength);
      Some(UsageEvent("", UsageKindOf(resource), if action == "create" then 1 else -1,
                      if UsageKindOf(resource) == "image" && n > 0 then n else 0))
  }

  lemma {:induction false} FirstSizeFacts(m: map<string, Any>, keys: seq<string>)
    ensures FirstSize(m, keys) >= 0
    ensures FirstSize(m, keys) == 0 <==>
      forall k :: k in keys && k in m ==> AsInt64(m[k]) == 0 || AsInt64(m[k]) == MIN64
    decreases |keys|
  {
    if keys != [] {
      FirstSizeFacts(m, keys[1..]);
      AbsFacts(AsInt64(if keys[0] in m then m[keys[0]] else Other));
      assert forall k :: k in keys <==> k == keys[0] || k in keys[1..];
    }
  }

  /** However the size arrives, the bytes of an event are never negative, and they are zero only for
      other kinds or when every source of a size is zero or the one value without an absolute. */
  lemma BytesNeverNegative(resource: string, action: string, respCode: int,
                           fromContext: Option<Any>, before: Option<map<string, Any>>, contentLength: int64)
    ensures var e := UsageFromOperation(resource, action, respCode, UsageBytes(fromContext, before, contentLength));
      e.Some? ==>
        && e.value.bytes >= 0
        && (e.value.bytes > 0 ==> e.value.kind == "image")
        && (e.value.kind == "image" ==> (e.value.bytes == 0 <==>
              && (fromContext.Some? ==> AsInt64(fromContext.value) in {0, MIN64})
              && (before.Some? ==>
                    forall k :: k in SIZE_KEYS && k in before.value ==> AsInt64(before.value[k]) in {0, MIN64})
              && contentLength in {0, MIN64}))
  {
    AbsFacts(contentLength);
    AbsFacts(UsageBytes(fromContext, before, contentLength));
    if fromContext.Some? { AbsFacts(AsInt64(fromContext.value)); }
    if before.Some? { FirstSizeFacts(before.value, SIZE_KEYS); }
  }

  // ----- whose event it is -----

  predicate SkipUsageMerchant(id: string) {
    Trim(id) in {"", "*", "share", "st"}
  }

  /** A text field of a document, trimmed, when it names a merchant that is billed. */
  function BillableField(m: map<string, Json>, key: string): Option<string> {
    if key in m && m[key].Str? && !SkipUsageMerchant(m[key].s) then Some(Trim(m[key].s)) else None
  }

  function LookupMerchantID(doc: Json): string
    requires doc.Obj?
    decreases doc
  {
    var m := doc.fields;
    if BillableField(m, "merchant_id").Some? then BillableField(m, "merchant_id").value
    else if BillableField(m, "MerchantID").Some? then BillableField(m, "MerchantID").value
    else if "meta" in m && m["meta"].Obj? then LookupMerchantID(m["meta"])
    else ""
  }

  function MerchantFromBefore(raw: string, unmarshal: string -> Option<Json>): string {
    var s := Trim(raw);
    if s == "" || s[0] != '{' then ""
    else match unmarshal(s)
      case Some(Obj(m)) =>
        var top := LookupMerchantID(Obj(m));
        if top != "" then top
        else if "_" in m && m["_"].Obj? then LookupMerchantID(m["_"])
        else ""
      case _ => ""
  }

  lemma {:induction false} LookupIsBillable(doc: Json)
    requires doc.Obj?
    ensures var id := LookupMerchantID(doc); id == "" || (!SkipUsageMerchant(id) && Trim(id) == id)
    decreases doc
  {
    var m := doc.fields;
    if "merchant_id" in m && m["merchant_id"].Str? { TrimFacts(m["merchant_id"].s); }
    if "MerchantID" in m && m["MerchantID"].Str? { TrimFacts(m["MerchantID"].s); }
    if "meta" in m && m["meta"].Obj? { LookupIsBillable(m["meta"]); }
  }

  /** The merchant an event is written for: the request's, or one found in the before document. */
  function BilledTo(merchant: string, fromBefore: string): string {
    if SkipUsageMerchant(merchant) && fromBefore != "" then fromBefore else merchant
  }

  /** The before document never makes an unbillable merchant out of anything. */
  lemma BeforeMerchantIsBillable(raw: string, unmarshal: string -> Option<Json>, merchant: string)
    ensures var id := MerchantFromBefore(raw, unmarshal);
      && (id == "" || (!SkipUsageMerchant(id) && Trim(id) == id))
      && (SkipUsageMerchant(BilledTo(merchant, id)) <==> SkipUsageMerchant(merchant) && id == "")
  {
    var s := Trim(raw);
    if s != "" && s[0] == '{' {
      match unmarshal(s)
      case Some(Obj(m)) =>
        LookupIsBillable(Obj(m));
        if "_" in m && m["_"].Obj? { LookupIsBillable(m["_"]); }
      case _ =>
    }
  }
}
