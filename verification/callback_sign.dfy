/** The sorted `k=v&…` serialisation of callback parameters and the verifier built on it
    (callback_auth.go, lines 101-168). MD5 with its hexadecimal printing is a parameter. */
module CallbackSign {
  import opened Text
  import opened Ordering

  type Params = map<string, string>

  predicate Skipped(k: string, skipKeys: seq<string>) {
    exists s | s in skipKeys :: Lower(s) == Lower(k)
  }

  /** The parameters that are signed. */
  function Kept(params: Params, skipKeys: seq<string>): Params {
    map k | k in params && !Skipped(k, skipKeys) && Trim(params[k]) != "" :: params[k]
  }

  function Pair(k: string, v: string): string {
    k + "=" + v
  }

  function Pairs(names: seq<string>, kept: Params): seq<string>
    requires forall k | k in names :: k in kept
  {
    seq(|names|, i requires 0 <= i < |names| => Pair(names[i], kept[names[i]]))
  }

  lemma SortedInside(kept: Params)
    ensures forall k :: k in SortedKeys(kept.Keys) ==> k in kept
  {
    assert forall k :: k in SortedKeys(kept.Keys) ==> k in Elements(SortedKeys(kept.Keys));
  }

  /** The payload a set of parameters is signed as. */
  ghost function Payload(kept: Params): string {
    SortedInside(kept);
    Join(Pairs(SortedKeys(kept.Keys), kept), "&")
  }

  /** Map iteration order never shows: every run returns the one payload. */
  method CanonicalSortedKV(params: Params, skipKeys: seq<string>) returns (r: string)
    ensures r == Payload(Kept(params, skipKeys))
  {
    var keys := KeptKeys(params, skipKeys);
    var names := SortedNames(keys);
    ghost var kept := Kept(params, skipKeys);
    SortedInside(kept);
    r := JoinPairs(names, params);
    assert Pairs(names, params) == Pairs(names, kept);
  }

  method JoinPairs(names: seq<string>, params: Params) returns (r: string)
    requires forall k :: k in names ==> k in params
    ensures r == Join(Pairs(names, params), "&")
  {
    var parts := [];
    for i := 0 to |names|
      invariant |parts| == i
      invariant forall j :: 0 <= j < i ==> parts[j] == Pair(names[j], params[names[j]])
    {
      assert names[i] in names;
      parts := parts + [names[i] + "=" + params[names[i]]];
    }
    assert parts == Pairs(names, params);
    r := Join(parts, "&");
  }

  /** The loops that lower-case the skip list and pick the keys to sign. */
  method KeptKeys(params: Params, skipKeys: seq<string>) returns (keys: set<string>)
    ensures keys == Kept(params, skipKeys).Keys
  {
    var skip := {};
    for i := 0 to |skipKeys|
      invariant forall low :: low in skip <==> exists j :: 0 <= j < i && low == Lower(skipKeys[j])
    {
      skip := skip + {Lower(skipKeys[i])};
    }
    keys := {};
    var todo := params.Keys;
    ghost var kept := Kept(params, skipKeys);
    while todo != {}
      invariant todo <= params.Keys
      invariant keys == kept.Keys - todo
    {
      var k :| k in todo;
      todo := todo - {k};
      assert Lower(k) in skip <==> Skipped(k, skipKeys);
      if Lower(k) in skip {
        continue;
      }
      if Trim(params[k]) == "" {
        continue;
      }
      keys := keys + {k};
    }
  }

  // ----- reading a payload back -----

  /** Where the first '=' is, or the length when there is none. */
  function FirstEquals(s: string): nat {
    if s == "" || s[0] == '=' then 0 else 1 + FirstEquals(s[1..])
  }

  lemma {:induction false} FirstEqualsOfPair(k: string, v: string)
    requires '=' !in k
    ensures FirstEquals(Pair(k, v)) == |k|
    decreases |k|
  {
    if k != "" {
      assert Pair(k, v)[1..] == Pair(k[1..], v);
      FirstEqualsOfPair(k[1..], v);
    }
  }

  /** The parameters a list of `k=v` parts stands for; a part without '=' is a key without value. */
  function ParseParts(parts: seq<string>): Params {
    if parts == [] then map[]
    else
      var p := parts[0];
      var n := FirstEquals(p);
      ParseParts(parts[1..])[p[..Min(n, |p|)] := if n < |p| then p[n + 1..] else ""]
  }

  function Min(a: nat, b: nat): nat {
    if a < b then a else b
  }

  function ParsePayload(s: string): Params {
    if s == "" then map[] else ParseParts(Split(s, '&'))
  }

  /** Keys free of both separators, values free of the outer one. */
  predicate Separable(kept: Params) {
    forall k | k in kept :: '=' !in k && '&' !in k && '&' !in kept[k]
  }

  lemma {:induction false} PartsReadBack(names: seq<string>, kept: Params)
    requires Separable(kept) && Increasing(names)
    requires forall k :: k in names ==> k in kept
    ensures ParseParts(Pairs(names, kept)) == map k | k in kept && k in names :: kept[k]
    decreases |names|
  {
    if names != [] {
      var k := names[0];
      var parts := Pairs(names, kept);
      assert parts[1..] == Pairs(names[1..], kept);
      PartsReadBack(names[1..], kept);
      FirstEqualsOfPair(k, kept[k]);
      assert parts[0] == Pair(k, kept[k]);
      assert parts[0][..|k|] == k && parts[0][|k| + 1..] == kept[k];
      assert forall j :: j in names <==> j == k || j in names[1..];
    }
  }

  lemma PairSeparable(k: string, v: string)
    requires '&' !in k && '&' !in v
    ensures '&' !in Pair(k, v) && Pair(k, v) != ""
  {
  }

  lemma {:induction false} FirstEqualsFacts(s: string)
    ensures FirstEquals(s) <= |s| && '=' !in s[..FirstEquals(s)]
    decreases |s|
  {
    if s != "" && s[0] != '=' {
      FirstEqualsFacts(s[1..]);
      var n := FirstEquals(s[1..]);
      assert s[..n + 1] == [s[0]] + s[1..][..n];
    }
  }

  /** Whatever is read from parts without '&' is separable. */
  lemma {:induction false} ParsedIsSeparable(parts: seq<string>)
    requires forall i :: 0 <= i < |parts| ==> '&' !in parts[i]
    ensures Separable(ParseParts(parts))
    decreases |parts|
  {
    if parts != [] {
      ParsedIsSeparable(parts[1..]);
      var p := parts[0];
      FirstEqualsFacts(p);
      var n := FirstEquals(p);
      assert forall c :: c in p[..n] ==> c in p;
      assert n < |p| ==> forall c :: c in p[n + 1..] ==> c in p;
    }
  }

  /** The signed parameters can be recovered from the payload exactly when no key holds a separator and no
      value the outer one. */
  lemma PayloadReadBackIff(kept: Params)
    ensures ParsePayload(Payload(kept)) == kept <==> Separable(kept)
  {
    if Separable(kept) {
      PayloadReadBack(kept);
    } else {
      SplitSingle(Payload(kept), '&');
      ParsedIsSeparable(Split(Payload(kept), '&'));
    }
  }

  lemma PayloadReadBack(kept: Params)
    requires Separable(kept)
    ensures ParsePayload(Payload(kept)) == kept
  {
    SortedInside(kept);
    var names := SortedKeys(kept.Keys);
    var parts := Pairs(names, kept);
    forall k
      ensures k in names <==> k in kept
    {
      assert k in names <==> k in Elements(names);
    }
    if names == [] {
      NoElements(names);
      assert kept == map[];
    } else {
      forall i | 0 <= i < |parts|
        ensures '&' !in parts[i] && parts[i] != ""
      {
        assert names[i] in names;
        PairSeparable(names[i], kept[names[i]]);
      }
      SplitJoin(parts, '&');
      assert parts[0] <= Payload(kept);
      PartsReadBack(names, kept);
    }
  }

  /** So no two parameter sets share a payload. */
  lemma PayloadInjective(a: Params, b: Params)
    requires Separable(a) && Separable(b) && Payload(a) == Payload(b)
    ensures a == b
  {
    PayloadReadBack(a);
    PayloadReadBack(b);
  }

  /** Without the condition two sets can share one: a value may imitate another pair. */
  lemma PayloadCollision()
    ensures var a: Params, b: Params := map["a" := "1&b=2"], map["a" := "1", "b" := "2"];
      a != b && Payload(a) == Payload(b)
  {
    var a: Params, b: Params := map["a" := "1&b=2"], map["a" := "1", "b" := "2"];
    assert "b" !in a && "b" in b;
    IncreasingUnique(SortedKeys(a.Keys), ["a"]);
    assert Less("a", "b");
    assert Elements(["a", "b"]) == b.Keys;
    IncreasingUnique(SortedKeys(b.Keys), ["a", "b"]);
    assert Pairs(["a"], a) == [Pair("a", "1&b=2")];
    assert Pairs(["a", "b"], b) == [Pair("a", "1"), Pair("b", "2")];
    assert Join([Pair("a", "1"), Pair("b", "2")], "&") == Pair("a", "1") + "&" + Pair("b", "2");
  }

  // ----- the verifier -----

  /** UUMD5Sign; `hexMD5` is the lower-case hexadecimal MD5 of a string. */
  function UUMD5Sign(payload: string, key: string, hexMD5: string -> string): string {
    Upper(hexMD5(Upper(payload + "&key=" + key)))
  }

  /** Comparison of signatures, blind to case and to white space around them. */
  predicate SignEqual(got: string, want: string) {
    var g, w := Upper(Trim(got)), Upper(Trim(want));
    g != "" && w != "" && g == w
  }

  predicate KeyMatches(got: string, payload: string, key: string, hexMD5: string -> string) {
    Trim(key) != "" && SignEqual(got, UUMD5Sign(payload, Trim(key), hexMD5))
  }

  /** A request is genuine when some candidate key that is not blank signs its payload. */
  ghost predicate Genuine(params: Params, keys: seq<string>, hexMD5: string -> string) {
    && "sign" in params && Trim(params["sign"]) != ""
    && Payload(Kept(params, ["sign"])) != ""
    && exists i :: 0 <= i < |keys| && KeyMatches(params["sign"], Payload(Kept(params, ["sign"])), keys[i], hexMD5)
  }

  method VerifyUUMD5(params: Params, keys: seq<string>, hexMD5: string -> string) returns (ok: bool)
    ensures ok <==> Genuine(params, keys, hexMD5)
  {
    if "sign" !in params || Trim(params["sign"]) == "" {
      return false;
    }
    var got := params["sign"];
    var payload := CanonicalSortedKV(params, ["sign"]);
    if payload == "" {
      return false;
    }
    var seen := {};
    for i := 0 to |keys|
      invariant forall j :: 0 <= j < i ==> !KeyMatches(got, payload, keys[j], hexMD5)
      invariant forall k :: k in seen ==> exists j :: 0 <= j < i && k == Trim(keys[j]) && k != ""
    {
      var key := Trim(keys[i]);
      if key == "" {
        continue;
      }
      if key in seen {
        continue;
      }
      seen := seen + {key};
      if SignEqual(got, UUMD5Sign(payload, key, hexMD5)) {
        return true;
      }
    }
    return false;
  }

  function CandidateKeys(keys: seq<string>): set<string> {
    set k | k in keys && Trim(k) != "" :: Trim(k)
  }

  /** Order and repetition of the candidate keys, and white space around them, do not matter. */
  lemma KeyListIrrelevant(params: Params, keys: seq<string>, others: seq<string>, hexMD5: string -> string)
    requires CandidateKeys(keys) == CandidateKeys(others)
    ensures Genuine(params, keys, hexMD5) <==> Genuine(params, others, hexMD5)
  {
    MoreKeys(params, keys, others, hexMD5);
    MoreKeys(params, others, keys, hexMD5);
  }

  lemma MoreKeys(params: Params, keys: seq<string>, others: seq<string>, hexMD5: string -> string)
    requires CandidateKeys(keys) <= CandidateKeys(others)
    ensures Genuine(params, keys, hexMD5) ==> Genuine(params, others, hexMD5)
  {
    if Genuine(params, keys, hexMD5) {
      var payload := Payload(Kept(params, ["sign"]));
      var i :| 0 <= i < |keys| && KeyMatches(params["sign"], payload, keys[i], hexMD5);
      assert keys[i] in keys && Trim(keys[i]) in CandidateKeys(keys);
      var l :| l in others && Trim(l) != "" && Trim(l) == Trim(keys[i]);
      var j :| 0 <= j < |others| && others[j] == l;
      assert KeyMatches(params["sign"], payload, others[j], hexMD5);
    }
  }

  /** Putting the signature in its place does not change what is signed. */
  lemma SigningKeepsPayload(params: Params, sign: string)
    ensures Kept(params["sign" := sign], ["sign"]) == Kept(params, ["sign"])
  {
    assert "sign" in ["sign"];
  }

  ghost predicate HexDigests(hexMD5: string -> string) {
    forall s :: hexMD5(s) != "" && forall i :: 0 <= i < |hexMD5(s)| ==>
      '0' <= hexMD5(s)[i] <= '9' || 'a' <= hexMD5(s)[i] <= 'f'
  }

  ghost predicate SignsAlike(payload: string, key: string, keys: seq<string>, hexMD5: string -> string) {
    exists i :: 0 <= i < |keys| && Trim(keys[i]) != ""
      && UUMD5Sign(payload, Trim(keys[i]), hexMD5) == UUMD5Sign(payload, key, hexMD5)
  }

  /** Signing with a key makes the request genuine exactly when the verifier knows a key that gives
      the same signature; a listed key that is not blank and has no white space around it does. */
  lemma SignedIsGenuineIff(params: Params, key: string, keys: seq<string>, hexMD5: string -> string)
    requires HexDigests(hexMD5) && Payload(Kept(params, ["sign"])) != ""
    ensures var payload := Payload(Kept(params, ["sign"]));
      var signed := params["sign" := UUMD5Sign(payload, key, hexMD5)];
      && (Genuine(signed, keys, hexMD5) <==> SignsAlike(payload, key, keys, hexMD5))
      && (key in keys && key != "" && Trimmed(key) ==> Genuine(signed, keys, hexMD5))
  {
    var payload := Payload(Kept(params, ["sign"]));
    var sign := UUMD5Sign(payload, key, hexMD5);
    SigningKeepsPayload(params, sign);
    SignatureClean(payload, key, hexMD5);
    forall i | 0 <= i < |keys| && Trim(keys[i]) != ""
      ensures SignEqual(sign, UUMD5Sign(payload, Trim(keys[i]), hexMD5))
         <==> UUMD5Sign(payload, Trim(keys[i]), hexMD5) == sign
    {
      SignatureClean(payload, Trim(keys[i]), hexMD5);
    }
    if key in keys && key != "" && Trimmed(key) {
      TrimFacts(key);
      var i :| 0 <= i < |keys| && keys[i] == key;
      assert KeyMatches(sign, payload, keys[i], hexMD5);
    }
  }

  /** A digest that tells even lengths from odd ones, to show what white space around a key does. */
  function ParityDigest(s: string): string {
    if |s| % 2 == 0 then "0" else "1"
  }

  lemma ParitySigns(payload: string, key: string)
    ensures UUMD5Sign(payload, key, ParityDigest) == if (|payload| + |key| + 5) % 2 == 0 then "0" else "1"
  {
    var text := payload + "&key=" + key;
    assert |Upper(text)| == |payload| + 5 + |key|;
    assert Upper("0") == "0" && Upper("1") == "1";
  }

  /** A key that signs otherwise once it is trimmed is refused although it is listed. */
  lemma PaddedKeyRefusedWhen(params: Params, key: string, hexMD5: string -> string)
    requires HexDigests(hexMD5) && Payload(Kept(params, ["sign"])) != ""
    requires var payload := Payload(Kept(params, ["sign"]));
      UUMD5Sign(payload, Trim(key), hexMD5) != UUMD5Sign(payload, key, hexMD5)
    ensures var payload := Payload(Kept(params, ["sign"]));
      !Genuine(params["sign" := UUMD5Sign(payload, key, hexMD5)], [key], hexMD5)
  {
    SignedIsGenuineIff(params, key, [key], hexMD5);
  }

  lemma TrimPadded(key: string)
    requires key == " k"
    ensures Trim(key) == "k"
  {
    var k := key[1..];
    assert k == "k" && !IsSpace(k[0]);
    assert TrimLeft(k) == k && TrimRight(k) == k;
  }

  /** So signing anything with the listed key " k" may be refused: the verifier tries "k" in its place. */
  lemma PaddedKeyRefused(params: Params, key: string)
    requires Payload(Kept(params, ["sign"])) != "" && key == " k"
    ensures var payload := Payload(Kept(params, ["sign"]));
      !Genuine(params["sign" := UUMD5Sign(payload, key, ParityDigest)], [key], ParityDigest)
  {
    var payload := Payload(Kept(params, ["sign"]));
    TrimPadded(key);
    ParitySigns(payload, key);
    ParitySigns(payload, Trim(key));
    PaddedKeyRefusedWhen(params, key, ParityDigest);
  }

  /** There is such a request: {"a": "1"}. */
  lemma PaddedKeyExample(params: Params, key: string)
    requires params == map["a" := "1"] && key == " k"
    ensures HexDigests(ParityDigest)
    ensures var payload := Payload(Kept(params, ["sign"]));
      payload != "" && !Genuine(params["sign" := UUMD5Sign(payload, key, ParityDigest)], [key], ParityDigest)
  {
    TrimFacts("1");
    PayloadNotEmpty(Kept(params, ["sign"]), "a");
    PaddedKeyRefused(params, key);
  }

  lemma PayloadNotEmpty(kept: Params, k: string)
    requires k in kept
    ensures Payload(kept) != ""
  {
    SortedInside(kept);
    var names := SortedKeys(kept.Keys);
    assert k in Elements(names);
    assert names != [];
    var parts := Pairs(names, kept);
    assert '=' in parts[0];
    assert parts[0] <= Join(parts, "&");
  }

  lemma UpperConcat(a: string, b: string)
    ensures Upper(a + b) == Upper(a) + Upper(b)
  {
  }

  /** Letter case never shows in a signature: neither that of the payload nor that of the key. */
  lemma SignatureIgnoresCase(payload: string, key: string, other: string, otherKey: string, hexMD5: string -> string)
    requires Upper(payload) == Upper(other) && Upper(key) == Upper(otherKey)
    ensures UUMD5Sign(payload, key, hexMD5) == UUMD5Sign(other, otherKey, hexMD5)
  {
    UpperConcat(payload + "&key=", key);
    UpperConcat(payload, "&key=");
    UpperConcat(other + "&key=", otherKey);
    UpperConcat(other, "&key=");
  }

  /** The digest tells the texts apart that are signed under these keys. */
  ghost predicate CollisionFree(payload: string, keys: set<string>, hexMD5: string -> string) {
    forall k, l :: k in keys && l in keys && UUMD5Sign(payload, k, hexMD5) == UUMD5Sign(payload, l, hexMD5) ==>
      Upper(payload + "&key=" + k) == Upper(payload + "&key=" + l)
  }

  lemma SignedTextIsKey(payload: string, k: string, l: string)
    ensures Upper(payload + "&key=" + k) == Upper(payload + "&key=" + l) <==> Upper(k) == Upper(l)
  {
    var front := Upper(payload + "&key=");
    UpperConcat(payload + "&key=", k);
    UpperConcat(payload + "&key=", l);
    assert (front + Upper(k))[|front|..] == Upper(k) && (front + Upper(l))[|front|..] == Upper(l);
  }

  /** For a digest without collisions among these texts a request signed with a key is accepted exactly when
      some candidate that is not blank equals the key once the candidate is trimmed, letter case aside. */
  lemma SignedByKeyIff(params: Params, key: string, keys: seq<string>, hexMD5: string -> string)
    requires HexDigests(hexMD5) && Payload(Kept(params, ["sign"])) != ""
    requires CollisionFree(Payload(Kept(params, ["sign"])), CandidateKeys(keys) + {key}, hexMD5)
    ensures var signed := params["sign" := UUMD5Sign(Payload(Kept(params, ["sign"])), key, hexMD5)];
      Genuine(signed, keys, hexMD5) <==>
        exists i :: 0 <= i < |keys| && Trim(keys[i]) != "" && Upper(Trim(keys[i])) == Upper(key)
  {
    var payload := Payload(Kept(params, ["sign"]));
    SignedIsGenuineIff(params, key, keys, hexMD5);
    forall i | 0 <= i < |keys| && Trim(keys[i]) != ""
      ensures UUMD5Sign(payload, Trim(keys[i]), hexMD5) == UUMD5Sign(payload, key, hexMD5)
         <==> Upper(Trim(keys[i])) == Upper(key)
    {
      assert keys[i] in keys && Trim(keys[i]) in CandidateKeys(keys);
      SignedTextIsKey(payload, Trim(keys[i]), key);
    }
  }

  /** A signature made with a key for one payload is accepted for another, by that key alone, exactly when the
      payloads are the same but for letter case: for a digest without collisions on the two texts. */
  lemma OtherPayloadIff(params: Params, other: string, key: string, hexMD5: string -> string)
    requires HexDigests(hexMD5) && Payload(Kept(params, ["sign"])) != "" && key != "" && Trimmed(key)
    requires var payload := Payload(Kept(params, ["sign"]));
      UUMD5Sign(payload, key, hexMD5) == UUMD5Sign(other, key, hexMD5) ==>
        Upper(payload + "&key=" + key) == Upper(other + "&key=" + key)
    ensures Genuine(params["sign" := UUMD5Sign(other, key, hexMD5)], [key], hexMD5) <==>
      Upper(other) == Upper(Payload(Kept(params, ["sign"])))
  {
    var payload := Payload(Kept(params, ["sign"]));
    var sign := UUMD5Sign(other, key, hexMD5);
    SigningKeepsPayload(params, sign);
    SignatureClean(other, key, hexMD5);
    SignatureClean(payload, key, hexMD5);
    TrimFacts(key);
    SignedTextIsPayload(payload, other, key);
    if Upper(other) == Upper(payload) { SignatureIgnoresCase(payload, key, other, key, hexMD5); }
    assert KeyMatches(sign, payload, [key][0], hexMD5) <==> UUMD5Sign(payload, key, hexMD5) == sign;
  }

  lemma SignedTextIsPayload(payload: string, other: string, key: string)
    ensures Upper(payload + "&key=" + key) == Upper(other + "&key=" + key) <==> Upper(payload) == Upper(other)
  {
    var back := Upper("&key=" + key);
    UpperConcat(payload, "&key=" + key);
    UpperConcat(other, "&key=" + key);
    assert payload + "&key=" + key == payload + ("&key=" + key) && other + "&key=" + key == other + ("&key=" + key);
    if Upper(payload) + back == Upper(other) + back {
      assert |Upper(payload)| == |Upper(other)|;
      assert (Upper(payload) + back)[..|Upper(payload)|] == Upper(payload);
      assert (Upper(other) + back)[..|Upper(other)|] == Upper(other);
    }
  }

  /** What is digested, and how a signature may be spelled: the payload with the key after it in upper case,
      accepted in any letter case and with white space around it. */
  lemma SignatureMeaning(params: Params, key: string, sent: string, hexMD5: string -> string)
    requires HexDigests(hexMD5) && Payload(Kept(params, ["sign"])) != "" && key != "" && Trimmed(key)
    ensures Genuine(params["sign" := sent], [key], hexMD5) <==>
      Upper(Trim(sent)) == Upper(hexMD5(Upper(Payload(Kept(params, ["sign"])) + "&key=" + key)))
  {
    var payload := Payload(Kept(params, ["sign"]));
    SigningKeepsPayload(params, sent);
    SignatureClean(payload, key, hexMD5);
    TrimFacts(key);
    assert |Upper(Trim(sent))| == |Trim(sent)|;
    assert KeyMatches(sent, payload, [key][0], hexMD5) <==>
      Upper(Trim(sent)) == Upper(hexMD5(Upper(payload + "&key=" + key)));
  }

  /** What is signed: every parameter but the signature, in any spelling of its name, whose value is not blank. */
  lemma SignedParameters(params: Params, k: string)
    ensures k in Kept(params, ["sign"]) <==> k in params && Lower(k) != "sign" && Trim(params[k]) != ""
    ensures k in Kept(params, ["sign"]) ==> Kept(params, ["sign"])[k] == params[k]
  {
    assert Lower("sign") == "sign";
    assert "sign" in ["sign"];
  }

  lemma SignatureClean(payload: string, key: string, hexMD5: string -> string)
    requires HexDigests(hexMD5)
    ensures var s := UUMD5Sign(payload, key, hexMD5); s != "" && Trim(s) == s && Upper(s) == s
  {
    var h := hexMD5(Upper(payload + "&key=" + key));
    var s := Upper(h);
    assert forall i :: 0 <= i < |s| ==> s[i] == UpperChar(h[i]);
    assert Trimmed(s);
    TrimFacts(s);
  }
}
