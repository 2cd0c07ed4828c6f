/** Which size and which merchant a metered operation ends up with, place by place (usage.go, lines 188-260;
    oplog.go, lines 208-243). */
module UsageLaws {
  import opened Text
  import opened JsonValue
  import opened Usage

  // ----- sizes -----

  /** The size a number says: its absolute value, and none when it is zero or has no absolute value. */
  function SizeOf(v: Any): int {
    var n: int := AsInt64(v);
    if n == MIN64 then 0 else if n < 0 then -n else n
  }

  lemma SizeOfAbs(v: Any)
    ensures AbsInt64(AsInt64(v)) > 0 <==> SizeOf(v) > 0
    ensures SizeOf(v) > 0 ==> AbsInt64(AsInt64(v)) == SizeOf(v)
  {
    AbsFacts(AsInt64(v));
  }

  /** How the dynamic types are read: unsigned numbers wrap around, numeric texts are integers first. */
  lemma AnyMeaning(n: int64, u: nat, f: int64)
    ensures AsInt64(Signed(n)) == n && AsInt64(Float(f)) == f && AsInt64(Other) == 0
    ensures u <= MAX64 ==> AsInt64(Unsigned(u)) == u
    ensures MAX64 < u < 0x1_0000_0000_0000_0000 ==> AsInt64(Unsigned(u)) == u - 0x1_0000_0000_0000_0000
    ensures AsInt64(Number(Option.Some(n), Option.Some(f))) == n && AsInt64(Number(Option.None, Option.Some(f))) == f
    ensures AsInt64(Number(Option.None, Option.None)) == 0
    ensures AsInt64(Digits(Option.Some(n))) == n && AsInt64(Digits(Option.None)) == 0
  {
  }

  /** The size under a key of the document, 0 when there is none. */
  function SizeAt(m: map<string, Any>, k: string): int {
    if k in m then SizeOf(m[k]) else 0
  }

  lemma {:induction false} FirstSizeAt(m: map<string, Any>, keys: seq<string>)
    ensures FirstSize(m, keys) ==
      if keys == [] then 0
      else if SizeAt(m, keys[0]) > 0 then SizeAt(m, keys[0]) else FirstSize(m, keys[1..])
  {
    if keys != [] {
      SizeOfAbs(if keys[0] in m then m[keys[0]] else Other);
      AnyMeaning(0, 0, 0);
    }
  }

  /** The document's size is the first of "size", "Size", "bytes" and "storage_bytes" that says one. */
  lemma DocumentSize(m: map<string, Any>)
    ensures SizeFromJSON(Option.Some(m)) ==
      if SizeAt(m, "size") > 0 then SizeAt(m, "size")
      else if SizeAt(m, "Size") > 0 then SizeAt(m, "Size")
      else if SizeAt(m, "bytes") > 0 then SizeAt(m, "bytes")
      else if SizeAt(m, "storage_bytes") > 0 then SizeAt(m, "storage_bytes") else 0
  {
    var a, b, c, d := "size", "Size", "bytes", "storage_bytes";
    var keys := [a, b, c, d];
    assert keys[1..] == [b, c, d] && [b, c, d][1..] == [c, d] && [c, d][1..] == [d] && [d][1..] == [];
    FirstSizeAt(m, keys);
    FirstSizeAt(m, [b, c, d]);
    FirstSizeAt(m, [c, d]);
    FirstSizeAt(m, [d]);
    FirstSizeAt(m, []);
  }

  /** A size the handler set comes before one in the before document, and that before the content length. */
  lemma SizePrecedence(fromContext: Option<Any>, before: Option<map<string, Any>>, contentLength: int64)
    ensures UsageBytes(fromContext, before, contentLength) ==
      if fromContext.Some? && SizeOf(fromContext.value) > 0 then SizeOf(fromContext.value)
      else if before.Some? && SizeFromJSON(before) > 0 then SizeFromJSON(before)
      else AbsInt64(contentLength)
  {
    if fromContext.Some? { SizeOfAbs(fromContext.value); }
  }

  /** The event of an image carries exactly that size; other events carry none. */
  lemma EventSize(resource: string, action: string, respCode: int, size: int64)
    requires UsageFromOperation(resource, action, respCode, size).Some?
    ensures var e := UsageFromOperation(resource, action, respCode, size).value;
      e.bytes == if resource == "image" then SizeOf(Signed(size)) else 0
  {
    AbsFacts(size);
  }

  // ----- merchants -----

  /** The text under a key, trimmed, when it is text and something is billed to it. */
  function BilledAt(doc: Json, k: string): string {
    if doc.Obj? && k in doc.fields && doc.fields[k].Str? && Trim(doc.fields[k].s) !in {"", "*", "share", "st"}
    then Trim(doc.fields[k].s) else ""
  }

  /** Level by level down the "meta" maps, "merchant_id" before "MerchantID": the first billed name wins. */
  lemma LookupStep(doc: Json)
    requires doc.Obj?
    ensures LookupMerchantID(doc) ==
      if BilledAt(doc, "merchant_id") != "" then BilledAt(doc, "merchant_id")
      else if BilledAt(doc, "MerchantID") != "" then BilledAt(doc, "MerchantID")
      else if "meta" in doc.fields && doc.fields["meta"].Obj? then LookupMerchantID(doc.fields["meta"]) else ""
  {
  }

  /** The document after `n` steps into "meta" maps, as far as there are any. */
  function Level(doc: Json, n: nat): Json
    decreases n
  {
    if n == 0 then doc else Level(Inside(doc), n - 1)
  }

  function Inside(doc: Json): Json {
    if doc.Obj? && "meta" in doc.fields && doc.fields["meta"].Obj? then doc.fields["meta"] else Null
  }

  function NameAt(doc: Json): string {
    if BilledAt(doc, "merchant_id") != "" then BilledAt(doc, "merchant_id") else BilledAt(doc, "MerchantID")
  }

  lemma {:induction false} NoLevels(n: nat)
    ensures NameAt(Level(Null, n)) == ""
    decreases n
  {
    if n > 0 { NoLevels(n - 1); }
  }

  /** The merchant of a document is the one named at the first level, going down "meta" maps, that names a
      billed one; and there is none exactly when no level does. */
  lemma {:induction false} LookupFirst(doc: Json, n: nat)
    requires doc.Obj? && forall j :: 0 <= j < n ==> NameAt(Level(doc, j)) == ""
    ensures NameAt(Level(doc, n)) != "" ==> LookupMerchantID(doc) == NameAt(Level(doc, n))
    ensures LookupMerchantID(doc) == "" ==> NameAt(Level(doc, n)) == ""
    decreases n
  {
    LookupStep(doc);
    if n > 0 {
      assert Level(doc, 0) == doc;
      forall j | 0 <= j < n - 1
        ensures NameAt(Level(Inside(doc), j)) == ""
      {
        assert Level(doc, j + 1) == Level(Inside(doc), j);
      }
      if Inside(doc).Obj? { LookupFirst(Inside(doc), n - 1); } else { NoLevels(n - 1); }
    }
  }

  lemma {:induction false} LookupSomewhere(doc: Json) returns (n: nat)
    requires doc.Obj? && LookupMerchantID(doc) != ""
    ensures NameAt(Level(doc, n)) == LookupMerchantID(doc)
    ensures forall j :: 0 <= j < n ==> NameAt(Level(doc, j)) == ""
    decreases doc
  {
    LookupStep(doc);
    if NameAt(doc) != "" {
      n := 0;
    } else {
      var m := LookupSomewhere(Inside(doc));
      n := m + 1;
      forall j | 0 <= j < n
        ensures NameAt(Level(doc, j)) == ""
      {
        if j > 0 { assert Level(doc, j) == Level(Inside(doc), j - 1); }
      }
    }
  }

  /** The before document is asked itself first, then its "_" map; a text that is no object names nobody. */
  lemma BeforeStep(raw: string, unmarshal: string -> Option<Json>)
    ensures var s := Trim(raw);
      MerchantFromBefore(raw, unmarshal) ==
        if s != "" && s[0] == '{' && unmarshal(s).Some? && unmarshal(s).value.Obj? then
          var doc := unmarshal(s).value;
          if LookupMerchantID(doc) != "" then LookupMerchantID(doc)
          else if "_" in doc.fields && doc.fields["_"].Obj? then LookupMerchantID(doc.fields["_"]) else ""
        else ""
  {
  }

  /** A merchant is left out of the accounts when it is blank, stands for all, or is one of the shared two,
      with any white space around it. */
  lemma UnbilledIff(id: string)
    ensures SkipUsageMerchant(id) <==> Trim(id) == "" || Trim(id) == "*" || Trim(id) == "share" || Trim(id) == "st"
  {
  }
}
