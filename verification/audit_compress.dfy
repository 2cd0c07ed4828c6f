/** From raw snapshots to the two stored bodies and back (audit_compress.go, lines 51-166 and 286-291).
    The JSON library is a parameter; what is assumed of it is said where it is used. */
module AuditCompress {
  import opened Text
  import opened Ordering
  import opened JsonValue
  import opened AuditDiff
  import opened AuditMeaning
  import opened AuditNormalize
  import opened AuditStored
  import opened AuditPaths

  const MAX_AUDIT_HOT_BYTES := 8192
  const AUDIT_DIFF_VERSION := "diff_v1"

  /** The three bytes of the ellipsis that marks a cut body. */
  const ELLIPSIS: string := "\U{E2}\U{80}\U{A6}"

  /** The diff envelope as it decodes; a missing or null change list is None. */
  datatype Envelope = Envelope(audit: string, changes: Option<seq<AuditChange>>)

  /** The encoding/json and fmt functions the code calls; None is an error return. */
  datatype Codec = Codec(
    unmarshal: string -> Option<Json>,
    sprint: Json -> string,
    marshalEnvelope: Envelope -> Option<string>,
    unmarshalEnvelope: string -> Option<Envelope>,
    marshalSummary: map<string, Json> -> Option<string>)

  function ParseAuditValue(raw: string, lib: Codec): Json {
    var s := Trim(raw);
    if s == "" || s == "null" then Null
    else match lib.unmarshal(s)
      case None => Str(s)
      case Some(v) => v
  }

  /** What DiffAuditJSON may return for two raw snapshots. */
  ghost predicate IsDiffOf(r: seq<AuditChange>, beforeRaw: string, afterRaw: string, lib: Codec) {
    exists b, a ::
      && Normalizes(ParseAuditValue(beforeRaw, lib), b, lib.sprint)
      && Normalizes(ParseAuditValue(afterRaw, lib), a, lib.sprint)
      && IsStoredDiff(r, b, a)
  }

  method DiffAuditJSON(beforeRaw: string, afterRaw: string, lib: Codec) returns (r: seq<AuditChange>)
    ensures IsDiffOf(r, beforeRaw, afterRaw, lib)
  {
    var before := ParseAuditValue(beforeRaw, lib);
    var after := ParseAuditValue(afterRaw, lib);
    if before.Null? && after.Null? {
      r := [];
      assert Diff("", Null, Null) == [];
      assert IsStoredDiff(r, Null, Null);
      return;
    }
    var out := new ChangeList();
    var b := NormalizeAuditValue(before, lib.sprint);
    var a := NormalizeAuditValue(after, lib.sprint);
    DiffAuditValue("", b, a, out);
    assert [] + Diff("", b, a) == Diff("", b, a);
    if |out.items| > MAX_AUDIT_CHANGES {
      out.items := out.items[..MAX_AUDIT_CHANGES];
    }
    r := SortBy(out.items, PathOf);
    assert IsStoredDiff(r, b, a);
  }

  /** The whole path from raw text to stored changes: with snapshots whose map entries do not collide
      the list is silent exactly on equal erasures, and, with nothing changed under the empty key at the
      top, a patch exactly when the cap cut nothing and no recorded place goes through a dotted key. */
  lemma StoredDiffMeaning(r: seq<AuditChange>, beforeRaw: string, afterRaw: string, lib: Codec)
    requires IsDiffOf(r, beforeRaw, afterRaw, lib)
    ensures var v, w := ParseAuditValue(beforeRaw, lib), ParseAuditValue(afterRaw, lib);
      var b, a := Normalize(v, lib.sprint), Normalize(w, lib.sprint);
      Agrees(v, lib.sprint) && Agrees(w, lib.sprint) ==>
        && (r == [] <==> Erase("", b) == Erase("", a))
        && (NamelessAlike(b, a) ==>
             (Erase("", AuditStored.ApplyChanges(b, r)) == Erase("", a) <==>
               |Diff("", b, a)| <= MAX_AUDIT_CHANGES && UndottedEdits(b, a)))
  {
    var v, w := ParseAuditValue(beforeRaw, lib), ParseAuditValue(afterRaw, lib);
    var b, a :| Normalizes(v, b, lib.sprint) && Normalizes(w, a, lib.sprint) && IsStoredDiff(r, b, a);
    if Agrees(v, lib.sprint) && Agrees(w, lib.sprint) {
      AgreeingResult(v, b, lib.sprint);
      AgreeingResult(w, a, lib.sprint);
      DiffEmptyIff("", b, a);
      StoredSize(r, b, a);
      if NamelessAlike(b, a) {
        StoredDiffIsPatchIff(b, a, r);
      }
    }
  }

  lemma StoredSize(r: seq<AuditChange>, b: Json, a: Json)
    requires IsStoredDiff(r, b, a)
    ensures |r| == if |Diff("", b, a)| > 80 then 80 else |Diff("", b, a)|
  {
    assert |multiset(r)| == |r| && |multiset(Capped(Diff("", b, a)))| == |Capped(Diff("", b, a))|;
  }

  // ----- truncation -----

  function TruncateAuditBytes(s: string, n: int): string {
    if n <= 0 || s == "" || |s| <= n then s else s[..n] + ELLIPSIS
  }

  /** A cut body is at most three bytes over the limit, is marked, and is not cut any further. */
  lemma TruncateFacts(s: string, n: int)
    requires n > 0
    ensures |TruncateAuditBytes(s, n)| <= n + |ELLIPSIS|
    ensures TruncateAuditBytes(s, n) == s <==> |s| <= n || s == s[..n] + ELLIPSIS
    ensures TruncateAuditBytes(TruncateAuditBytes(s, n), n) == TruncateAuditBytes(s, n)
  {
    if |s| > n {
      assert (s[..n] + ELLIPSIS)[..n] == s[..n];
    }
  }

  // ----- the envelope -----

  function ParseAuditDiffAfter(after: string, lib: Codec): Option<seq<AuditChange>> {
    var s := Trim(after);
    if s == "" || s[0] != '{' then None
    else match lib.unmarshalEnvelope(s)
      case None => None
      case Some(env) => if env.audit != AUDIT_DIFF_VERSION then None else env.changes
  }

  /** An update: the encoded envelope, cut to size; nothing at all when nothing changed. */
  function UpdateBody(changes: seq<AuditChange>, after: string, lib: Codec): string {
    if changes == [] then ""
    else match lib.marshalEnvelope(Envelope(AUDIT_DIFF_VERSION, Some(changes)))
      case None => TruncateAuditBytes(after, MAX_AUDIT_HOT_BYTES)
      case Some(raw) => TruncateAuditBytes(raw, MAX_AUDIT_HOT_BYTES)
  }

  /** The library round-trips the envelope: an object without white space around it that decodes to
      what was encoded. */
  ghost predicate RoundTrips(changes: seq<AuditChange>, lib: Codec) {
    var env := Envelope(AUDIT_DIFF_VERSION, Some(changes));
    match lib.marshalEnvelope(env)
    case None => false
    case Some(raw) => raw != "" && raw[0] == '{' && Trimmed(raw) && lib.unmarshalEnvelope(raw) == Some(env)
  }

  /** The decoder takes a text that opens an object for one only when it closes it. */
  ghost predicate ClosesObjects(lib: Codec) {
    forall s :: Trimmed(s) && s != "" && s[0] == '{' && lib.unmarshalEnvelope(s).Some? ==> s[|s| - 1] == '}'
  }

  /** A cut body ends in the marker, so it is no object any more. */
  lemma CutBodyUnreadable(raw: string, n: nat, lib: Codec)
    requires ClosesObjects(lib) && 0 < n < |raw| && raw[0] == '{'
    ensures ParseAuditDiffAfter(TruncateAuditBytes(raw, n), lib) == None
  {
    var cut := raw[..n] + ELLIPSIS;
    assert cut[0] == '{' && cut[|cut| - 1] == ELLIPSIS[2];
    assert Trimmed(cut);
    TrimFacts(cut);
  }

  /** Nothing is stored when nothing changed, the cut after text when the changes cannot be encoded, and
      otherwise the cut encoding of exactly these changes. */
  lemma UpdateBodyMeaning(changes: seq<AuditChange>, after: string, lib: Codec, raw: string)
    ensures changes == [] ==> UpdateBody(changes, after, lib) == ""
    ensures changes != [] && lib.marshalEnvelope(Envelope("diff_v1", Some(changes))) == None ==>
      UpdateBody(changes, after, lib) == if |after| <= 8192 then after else after[..8192] + "\U{E2}\U{80}\U{A6}"
    ensures changes != [] && lib.marshalEnvelope(Envelope("diff_v1", Some(changes))) == Some(raw) ==>
      UpdateBody(changes, after, lib) == if |raw| <= 8192 then raw else raw[..8192] + "\U{E2}\U{80}\U{A6}"
  {
  }

  /** A stored body reads as a list of changes exactly when, white space aside, it is an object that decodes to
      that list under the version the writer uses. */
  lemma ParsedIff(after: string, lib: Codec, changes: seq<AuditChange>)
    ensures ParseAuditDiffAfter(after, lib) == Some(changes) <==>
      && HasPrefix(Trim(after), "{")
      && lib.unmarshalEnvelope(Trim(after)) == Some(Envelope("diff_v1", Some(changes)))
  {
  }

  /** Reading the stored body back gives exactly the stored changes when, and only when, the encoded
      envelope fits in the 8192 bytes, and nothing otherwise. */
  lemma UpdateRoundTrip(changes: seq<AuditChange>, after: string, lib: Codec)
    requires changes != [] && RoundTrips(changes, lib) && ClosesObjects(lib)
    ensures var raw := lib.marshalEnvelope(Envelope(AUDIT_DIFF_VERSION, Some(changes))).value;
      && (ParseAuditDiffAfter(UpdateBody(changes, after, lib), lib) == Some(changes) <==> |raw| <= MAX_AUDIT_HOT_BYTES)
      && (|raw| > MAX_AUDIT_HOT_BYTES ==> ParseAuditDiffAfter(UpdateBody(changes, after, lib), lib) == None)
  {
    var raw := lib.marshalEnvelope(Envelope(AUDIT_DIFF_VERSION, Some(changes))).value;
    TrimFacts(raw);
    if |raw| > MAX_AUDIT_HOT_BYTES {
      CutBodyUnreadable(raw, MAX_AUDIT_HOT_BYTES, lib);
    }
  }

  /** The encoder writes every path out: an encoding is at least as long as each path in it. */
  ghost predicate WritesPaths(lib: Codec) {
    forall env: Envelope, c :: env.changes.Some? && c in env.changes.value && lib.marshalEnvelope(env).Some? ==>
      |lib.marshalEnvelope(env).value| >= |c.path|
  }

  /** So with any such library changes with a path longer than the limit are lost. */
  lemma LongPathLost(changes: seq<AuditChange>, c: AuditChange, after: string, lib: Codec)
    requires c in changes && |c.path| > MAX_AUDIT_HOT_BYTES
    requires RoundTrips(changes, lib) && ClosesObjects(lib) && WritesPaths(lib)
    ensures ParseAuditDiffAfter(UpdateBody(changes, after, lib), lib) == None
  {
    var env := Envelope(AUDIT_DIFF_VERSION, Some(changes));
    assert c in env.changes.value && |lib.marshalEnvelope(env).value| >= |c.path|;
    UpdateRoundTrip(changes, after, lib);
  }

  function AllPaths(changes: seq<AuditChange>): string {
    if changes == [] then "" else changes[0].path + AllPaths(changes[1..])
  }

  lemma {:induction false} PathInAllPaths(changes: seq<AuditChange>, c: AuditChange)
    requires c in changes
    ensures |AllPaths(changes)| >= |c.path|
    decreases |changes|
  {
    if c != changes[0] { PathInAllPaths(changes[1..], c); }
  }

  /** There is a library that meets all that is assumed of it for given changes. */
  lemma LibraryExists(changes: seq<AuditChange>) returns (lib: Codec)
    ensures RoundTrips(changes, lib) && ClosesObjects(lib) && WritesPaths(lib)
  {
    var env := Envelope(AUDIT_DIFF_VERSION, Some(changes));
    var marshal := (e: Envelope) => Some("{" + (if e.changes.Some? then AllPaths(e.changes.value) else "") + "}");
    var body := marshal(env).value;
    lib := Codec(_ => None, _ => "", marshal, s => if s == body then Some(env) else None, _ => None);
    assert body[0] == '{' && body[|body| - 1] == '}';
    forall e: Envelope, c | e.changes.Some? && c in e.changes.value
      ensures |lib.marshalEnvelope(e).value| >= |c.path|
    {
      PathInAllPaths(e.changes.value, c);
    }
  }

  // ----- the summary of a created or deleted object -----

  const SUMMARY_KEYS: seq<string> := [
    "id", "_id", "name", "nickname", "title", "status", "level",
    "merchant_id", "account_id", "user_id", "target_id", "phone", "email",
    "code", "type"
  ]

  /** `x` is found under `key`: the exact key when it is there, else some key equal to it but for case. */
  ghost predicate FoundFold(m: map<string, Json>, key: string, x: Json) {
    if key in m then x == m[key]
    else exists k :: k in m && Lower(k) == Lower(key) && x == m[k]
  }

  method LookupFold(m: map<string, Json>, key: string) returns (r: Option<Json>)
    ensures r.Some? <==> HasFold(m, key)
    ensures r.Some? ==> FoundFold(m, key, r.value)
  {
    if key in m {
      return Some(m[key]);
    }
    var low := Lower(key);
    var todo := m.Keys;
    while todo != {}
      invariant todo <= m.Keys
      invariant forall k :: k in m && k !in todo ==> Lower(k) != low
    {
      var k :| k in todo;
      todo := todo - {k};
      if Lower(k) == low {
        return Some(m[k]);
      }
    }
    return None;
  }

  predicate HasFold(m: map<string, Json>, key: string) {
    exists k | k in m :: Lower(k) == Lower(key)
  }

  /** The metadata map names a merchant, which overrides the one found at the top. */
  predicate MetaMerchant(root: map<string, Json>) {
    "_" in root && root["_"].Obj? && HasFold(root["_"].fields, "merchant_id")
  }

  /** What the summary holds under `key`; sensitive values are masked. */
  ghost predicate SummaryValue(root: map<string, Json>, key: string, x: Json) {
    if key == "merchant_id" && MetaMerchant(root) then FoundFold(root["_"].fields, key, x)
    else if Lower(key) in SKIP_EXACT then x == Str("***")
    else FoundFold(root, key, x)
  }

  /** A summary of `root`: of the summary keys exactly those that can be found, each with its value. */
  ghost predicate IsSummary(root: map<string, Json>, out: map<string, Json>) {
    && (forall key :: key in out <==>
          key in SUMMARY_KEYS && (HasFold(root, key) || (key == "merchant_id" && MetaMerchant(root))))
    && (forall key :: key in out ==> SummaryValue(root, key, out[key]))
  }

  ghost predicate TopValue(root: map<string, Json>, key: string, x: Json) {
    if Lower(key) in SKIP_EXACT then x == Str("***") else FoundFold(root, key, x)
  }

  method TopFields(root: map<string, Json>) returns (out: map<string, Json>)
    ensures forall key :: key in out <==> key in SUMMARY_KEYS && HasFold(root, key)
    ensures forall key :: key in out ==> TopValue(root, key, out[key])
  {
    out := map[];
    for i := 0 to |SUMMARY_KEYS|
      invariant forall key :: key in out <==> key in SUMMARY_KEYS[..i] && HasFold(root, key)
      invariant forall key :: key in out ==> TopValue(root, key, out[key])
    {
      var key := SUMMARY_KEYS[i];
      assert SUMMARY_KEYS[..i + 1] == SUMMARY_KEYS[..i] + [key];
      var found := LookupFold(root, key);
      if found.Some? {
        out := out[key := if Lower(key) in SKIP_EXACT then Str("***") else found.value];
      }
    }
    assert SUMMARY_KEYS[..|SUMMARY_KEYS|] == SUMMARY_KEYS;
  }

  method SummaryFields(root: map<string, Json>) returns (out: map<string, Json>)
    ensures IsSummary(root, out)
  {
    out := TopFields(root);
    if "_" in root && root["_"].Obj? {
      var mid := LookupFold(root["_"].fields, "merchant_id");
      if mid.Some? {
        assert SUMMARY_KEYS[7] == "merchant_id";
        out := out["merchant_id" := mid.value];
      }
    }
  }

  /** The keys a summary may hold. */
  predicate SummaryName(s: string) {
    || s == "id" || s == "_id" || s == "name" || s == "nickname" || s == "title" || s == "status" || s == "level"
    || s == "merchant_id" || s == "account_id" || s == "user_id" || s == "target_id" || s == "phone" || s == "email"
    || s == "code" || s == "type"
  }

  /** The object has a "_" map with some key that is "merchant_id" in lower case. */
  predicate MetaNames(root: map<string, Json>) {
    "_" in root && root["_"].Obj? && exists k | k in root["_"].fields :: Lower(k) == "merchant_id"
  }

  /** A summary holds exactly those of fifteen names that the object has, letter case aside, the exact spelling
      first; and the merchant of its "_" map rather than its own. */
  lemma SummaryMeaning(root: map<string, Json>, out: map<string, Json>, key: string)
    requires IsSummary(root, out)
    ensures key in out <==>
      && SummaryName(key)
      && ((exists k :: k in root && Lower(k) == Lower(key)) || (key == "merchant_id" && MetaNames(root)))
    ensures key in out && key in root && !(key == "merchant_id" && MetaNames(root)) ==> out[key] == root[key]
    ensures key == "merchant_id" && MetaNames(root) ==>
      exists k :: k in root["_"].fields && Lower(k) == "merchant_id" && out[key] == root["_"].fields[k]
    ensures key == "merchant_id" && MetaNames(root) && key in root["_"].fields ==> out[key] == root["_"].fields[key]
  {
    SummaryNames(key);
    MetaNamesIff(root);
    if key in out { SummaryNeverMasks(root, out, key); }
  }

  lemma MetaNamesIff(root: map<string, Json>)
    ensures MetaMerchant(root) <==> MetaNames(root)
    ensures Lower("merchant_id") == "merchant_id"
  {
    assert Lower("merchant_id") == "merchant_id";
  }

  lemma SummaryNames(key: string)
    ensures key in SUMMARY_KEYS <==> SummaryName(key)
  {
    assert SUMMARY_KEYS[0] == "id" && SUMMARY_KEYS[1] == "_id" && SUMMARY_KEYS[2] == "name";
    assert SUMMARY_KEYS[3] == "nickname" && SUMMARY_KEYS[4] == "title" && SUMMARY_KEYS[5] == "status";
    assert SUMMARY_KEYS[6] == "level" && SUMMARY_KEYS[7] == "merchant_id" && SUMMARY_KEYS[8] == "account_id";
    assert SUMMARY_KEYS[9] == "user_id" && SUMMARY_KEYS[10] == "target_id" && SUMMARY_KEYS[11] == "phone";
    assert SUMMARY_KEYS[12] == "email" && SUMMARY_KEYS[13] == "code" && SUMMARY_KEYS[14] == "type";
  }

  /** No summary key is one whose value would be masked, so a summary holds just what it found. */
  lemma SummaryNeverMasks(root: map<string, Json>, out: map<string, Json>, key: string)
    requires IsSummary(root, out) && key in out
    ensures FoundFold(if key == "merchant_id" && MetaMerchant(root) then root["_"].fields else root, key, out[key])
  {
    SummaryKeyIsLower(key);
    SummaryKeyIsOpen(key);
  }

  lemma SummaryKeyIsLower(key: string)
    requires key in SUMMARY_KEYS
    ensures Lower(key) == key
  {
  }

  lemma SummaryKeyIsOpen(key: string)
    requires key in SUMMARY_KEYS
    ensures key !in SKIP_EXACT
  {
  }

  function SummaryText(out: map<string, Json>, s: string, lib: Codec): string {
    match lib.marshalSummary(out)
    case Some(t) => t
    case None => TruncateAuditBytes(s, MAX_AUDIT_HOT_BYTES)
  }

  /** The possible results of compactAuditSummary. */
  ghost predicate IsCompactSummary(raw: string, lib: Codec, r: string) {
    var s := Trim(raw);
    if s == "" then r == ""
    else match lib.unmarshal(s)
      case Some(Obj(root)) =>
        exists out :: IsSummary(root, out) && r == SummaryText(out, s, lib)
      case _ => r == TruncateAuditBytes(s, MAX_AUDIT_HOT_BYTES)
  }

  /** The summary of an object is the encoding of what `SummaryMeaning` describes, or its cut text when that
      cannot be encoded; other text stands for itself, trimmed and cut; blank text for nothing. */
  lemma CompactSummaryMeaning(raw: string, lib: Codec, r: string, root: map<string, Json>)
    requires IsCompactSummary(raw, lib, r)
    ensures Trim(raw) == "" ==> r == ""
    ensures Trim(raw) != "" && !(exists m :: lib.unmarshal(Trim(raw)) == Some(Obj(m))) ==>
      r == if |Trim(raw)| <= 8192 then Trim(raw) else Trim(raw)[..8192] + ELLIPSIS
    ensures Trim(raw) != "" && lib.unmarshal(Trim(raw)) == Some(Obj(root)) ==>
      exists out :: IsSummary(root, out) && match lib.marshalSummary(out)
        case Some(text) => r == text
        case None => r == if |Trim(raw)| <= 8192 then Trim(raw) else Trim(raw)[..8192] + ELLIPSIS
  {
  }

  method CompactAuditSummary(raw: string, lib: Codec) returns (r: string)
    ensures IsCompactSummary(raw, lib, r)
  {
    var s := Trim(raw);
    if s == "" {
      return "";
    }
    match lib.unmarshal(s)
    case Some(Obj(root)) =>
      var out := SummaryFields(root);
      r := SummaryText(out, s, lib);
    case _ =>
      r := TruncateAuditBytes(s, MAX_AUDIT_HOT_BYTES);
  }

  /** What CompressAuditBodies stores for an action, before and after. */
  method CompressAuditBodies(action0: string, before: string, after: string, lib: Codec)
    returns (b: string, a: string)
    ensures |b| <= MAX_AUDIT_HOT_BYTES + |ELLIPSIS| && |a| <= MAX_AUDIT_HOT_BYTES + |ELLIPSIS|
    ensures var action := Lower(Trim(action0));
      && (action == "update" ==> b == "" && exists changes ::
            IsDiffOf(changes, before, after, lib) && a == UpdateBody(changes, after, lib))
      && (action == "create" ==> b == "" && exists s ::
            IsCompactSummary(after, lib, s) && a == TruncateAuditBytes(s, MAX_AUDIT_HOT_BYTES))
      && (action == "delete" ==> a == "" && exists s ::
            IsCompactSummary(before, lib, s) && b == TruncateAuditBytes(s, MAX_AUDIT_HOT_BYTES))
      && (action !in {"update", "create", "delete"} ==>
            b == TruncateAuditBytes(before, MAX_AUDIT_HOT_BYTES) && a == TruncateAuditBytes(after, MAX_AUDIT_HOT_BYTES))
  {
    var action := Lower(Trim(action0));
    if action == "update" {
      var changes := DiffAuditJSON(before, after, lib);
      b, a := "", UpdateBody(changes, after, lib);
    } else if action == "create" {
      var s := CompactAuditSummary(after, lib);
      b, a := "", TruncateAuditBytes(s, MAX_AUDIT_HOT_BYTES);
    } else if action == "delete" {
      var s := CompactAuditSummary(before, lib);
      b, a := TruncateAuditBytes(s, MAX_AUDIT_HOT_BYTES), "";
    } else {
      b, a := TruncateAuditBytes(before, MAX_AUDIT_HOT_BYTES), TruncateAuditBytes(after, MAX_AUDIT_HOT_BYTES);
    }
  }
}
