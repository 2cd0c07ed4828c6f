/** Snapshots whose stored diff is no patch (audit_compress.go, lines 149-151 and 260-268): more changes than
    are kept, a key that holds a dot, and the empty key at the top. */
module AuditWide {
  import opened Text
  import opened Ordering
  import opened JsonValue
  import opened AuditDiff
  import opened AuditMeaning
  import opened AuditPatch
  import opened AuditStored
  import opened AuditPaths

  function Field(n: nat): string {
    seq(n + 1, _ => 'q')
  }

  /** {"q": 1, "qq": 1, ...} with n fields. */
  function Flat(n: nat): map<string, Json> {
    if n == 0 then map[] else Flat(n - 1)[Field(n - 1) := Num(1.0)]
  }

  predicate AllQ(k: string) {
    k != "" && forall i | 0 <= i < |k| :: k[i] == 'q'
  }

  lemma {:induction false} FlatFacts(n: nat)
    ensures |Flat(n)| == n
    ensures forall k :: k in Flat(n) ==> |k| <= n && AllQ(k) && Flat(n)[k] == Num(1.0)
  {
    if n > 0 {
      FlatFacts(n - 1);
      assert Field(n - 1) !in Flat(n - 1);
      assert Flat(n).Keys == Flat(n - 1).Keys + {Field(n - 1)};
    }
  }

  lemma FieldKept(k: string)
    requires AllQ(k)
    ensures !SkipAuditPath(k) && GoodKey(k)
  {
    assert '.' !in k && LastKey(k) == k;
    var low := Lower(k);
    assert low[0] == 'q' && low[|low| - 1] == 'q';
    forall s | s in SKIP_SUFFIX
      ensures !HasSuffix(low, s) && k != s
    {
      SuffixEnds(s);
      assert |s| <= |low| ==> low[|low| - |s|..][|s| - 1] == 'q';
    }
    ExactStarts(low);
  }

  lemma SuffixEnds(s: string)
    requires s in SKIP_SUFFIX
    ensures s != "" && s[|s| - 1] != 'q'
  {
  }

  lemma ExactStarts(s: string)
    requires s != "" && s[0] == 'q'
    ensures s !in SKIP_EXACT && !HasPrefix(s, "logs") && !HasPrefix(s, "context.")
  {
  }

  lemma {:induction false} IncreasingSize(s: seq<string>)
    requires Increasing(s)
    ensures |Elements(s)| == |s|
    decreases |s|
  {
    NoElements(s);
    if s != [] {
      TailElements(s);
      IncreasingSize(s[1..]);
    }
  }

  /** A value of its own at a path that is kept, where there was none. */
  ghost predicate NewField(before: Json, after: Json, k: string) {
    !SkipAuditPath(Child("", k)) && Get(before, k) == Null && !MapOrNull(Get(after, k))
  }

  lemma OneEdit(path: string, x: Json)
    requires !SkipAuditPath(path) && !MapOrNull(x)
    ensures |Edits(path, Null, x)| == 1
  {
  }

  lemma {:induction false} OneEditEach(names: seq<string>, before: Json, after: Json)
    requires after.Obj? && forall i :: 0 <= i < |names| ==> NewField(before, after, names[i])
    ensures |EditsOf("", names, before, after)| == |names|
    decreases |names|
  {
    if names != [] {
      var k := names[0];
      assert NewField(before, after, k);
      OneEdit(Child("", k), Get(after, k));
      OneEditEach(names[1..], before, after);
      var es := Edits(Child("", k), Get(before, k), Get(after, k));
      assert EditsOf("", names, before, after) == Under(k, es) + EditsOf("", names[1..], before, after);
    }
  }

  lemma NewFieldsEdits(names: seq<string>, before: Json, after: Json)
    requires before.Null? && after.Obj? && names == SortedKeys(after.fields.Keys)
    requires forall k :: k in after.fields ==> NewField(before, after, k)
    ensures |EditsOf("", names, before, after)| == |after.fields|
  {
    IncreasingSize(names);
    assert |after.fields.Keys| == |after.fields|;
    forall i | 0 <= i < |names|
      ensures NewField(before, after, names[i])
    {
      assert names[i] in Elements(names);
    }
    OneEditEach(names, before, after);
  }

  /** Where nothing was, every new field is one change. */
  lemma NewFieldsDiff(before: Json, after: Json)
    requires before.Null? && after.Obj?
    requires forall k :: k in after.fields ==> NewField(before, after, k)
    ensures |Diff("", before, after)| == |after.fields|
  {
    DiffFromNothing(before, after);
    NewFieldsEdits(SortedKeys(after.fields.Keys), before, after);
  }

  lemma DiffFromNothing(before: Json, after: Json)
    requires before.Null? && after.Obj?
    ensures |Diff("", before, after)| == |EditsOf("", SortedKeys(after.fields.Keys), before, after)|
  {
    assert KeysOf(before) + KeysOf(after) == after.fields.Keys;
    assert |Diff("", before, after)| == |Edits("", before, after)|;
  }

  /** An object of numbers under keys that are good and kept. */
  ghost predicate FlatObject(v: Json) {
    v.Obj? && forall k :: k in v.fields ==> v.fields[k].Num? && GoodKey(k) && !SkipAuditPath(k)
  }

  /** With more than 80 such fields nothing that may be stored turns nothing into the object. */
  lemma WideDiffIsNoPatch(before: Json, after: Json, r: seq<AuditChange>)
    requires before.Null? && FlatObject(after) && |after.fields| > MAX_AUDIT_CHANGES
    requires IsStoredDiff(r, before, after)
    ensures Erase("", AuditStored.ApplyChanges(before, r)) != Erase("", after)
  {
    forall k | k in after.fields
      ensures NewField(before, after, k)
    {
    }
    NewFieldsDiff(before, after);
    GoodKeysPatchIff(before, after, r);
  }

  lemma FlatIsFlat(m: map<string, Json>)
    requires forall k :: k in m ==> AllQ(k) && m[k] == Num(1.0)
    ensures FlatObject(Obj(m))
  {
    forall k | k in m
      ensures GoodKey(k) && !SkipAuditPath(k)
    {
      FieldKept(k);
    }
  }

  /** There are such objects of any size, 81 among them. */
  lemma WideObjectExists(n: nat)
    ensures FlatObject(Obj(Flat(n))) && |Flat(n)| == n
  {
    FlatFacts(n);
    FlatIsFlat(Flat(n));
  }

  // ----- keys that are not read back -----

  /** An object with a single number in it. */
  function Single(k: string, x: real): Json {
    Obj(map[k := Num(x)])
  }

  lemma SingleEdit(k: string, x: real)
    requires !SkipAuditPath(k)
    ensures Edits("", Null, Single(k, x)) == [Edit([k], Null, Num(x))]
  {
    var after := Single(k, x);
    var names := SortedKeys(KeysOf(Null) + KeysOf(after));
    assert KeysOf(Null) + KeysOf(after) == {k};
    OneName(names, k);
    var es := Edits(Child("", k), Get(Null, k), Get(after, k));
    assert Child("", k) == k && es == [Edit([], Null, Num(x))];
    assert EditsOf("", names, Null, after) == Under(k, es) + EditsOf("", names[1..], Null, after);
    assert Under(k, es) == [Edit([k], Null, Num(x))];
  }

  lemma OneName(names: seq<string>, k: string)
    requires Increasing(names) && Elements(names) == {k}
    ensures names == [k]
  {
    IncreasingSize(names);
    assert names[0] in Elements(names);
  }

  lemma DottedKept(k: string)
    requires k == "q.q"
    ensures !SkipAuditPath(k) && '.' in k
  {
    var low := Lower(k);
    assert low[0] == 'q' && low[|low| - 1] == 'q';
    assert k[1..] == ".q" && k[2..] == "q";
    assert LastKey(k[2..]) == "q" && LastKey(k[1..]) == "q" && LastKey(k) == "q";
    assert Lower("q")[0] == 'q';
    forall s | s in SKIP_SUFFIX
      ensures !HasSuffix(low, s) && LastKey(k) != s
    {
      SuffixEnds(s);
      assert |s| <= |low| ==> low[|low| - |s|..][|s| - 1] == 'q';
    }
    ExactStarts(low);
    ExactStarts(Lower("q"));
  }

  /** {"q.q": x} created from nothing is one change, and what is stored of it is no patch: its path is read
      back as two keys. */
  lemma DottedKeyIsNoPatch(k: string, x: real, r: seq<AuditChange>)
    requires k == "q.q" && IsStoredDiff(r, Null, Single(k, x))
    ensures |Diff("", Null, Single(k, x))| == 1
    ensures Erase("", AuditStored.ApplyChanges(Null, r)) != Erase("", Single(k, x))
  {
    DottedKept(k);
    SingleEdit(k, x);
    var e := Edit([k], Null, Num(x));
    assert e in Edits("", Null, Single(k, x)) && '.' in e.keys[0];
    StoredDiffIsPatchIff(Null, Single(k, x), r);
  }

  /** {"": x} created from nothing: the stored path is empty and the number replaces the whole. */
  lemma NamelessIsNoPatch(x: real, r: seq<AuditChange>)
    requires IsStoredDiff(r, Null, Single("", x))
    ensures Erase("", AuditStored.ApplyChanges(Null, r)) != Erase("", Single("", x))
  {
    SingleEdit("", x);
    assert Get(Single("", x), "") == Num(x);
    NamelessPatchClears(Null, Single("", x), r);
  }

  lemma WriteWhole(v: Json, w: Edit)
    requires w.keys == []
    ensures ApplyEdits(v, [w]) == w.after
  {
    assert SetAt(v, [w][0].keys, w.after) == w.after;
    assert ApplyEdits(w.after, [w][1..]) == w.after;
  }

  lemma NamelessClearedEdits(x: real)
    ensures Edits("", Single("", x), Obj(map[])) == [Edit([""], Num(x), Null)]
  {
    var before, after := Single("", x), Obj(map[]);
    var names := SortedKeys(KeysOf(before) + KeysOf(after));
    assert KeysOf(before) + KeysOf(after) == {""};
    OneName(names, "");
    var es := Edits(Child("", ""), Get(before, ""), Get(after, ""));
    assert es == [Edit([], Num(x), Null)];
    assert EditsOf("", names, before, after) == Under("", es) + EditsOf("", names[1..], before, after);
    assert Under("", es) == [Edit([""], Num(x), Null)];
  }

  /** Emptying {"": x} is the case that is left: the whole is replaced by nothing, which is what remains. */
  lemma NamelessMayPatch(x: real, r: seq<AuditChange>)
    requires IsStoredDiff(r, Single("", x), Obj(map[]))
    ensures Erase("", AuditStored.ApplyChanges(Single("", x), r)) == Erase("", Obj(map[]))
  {
    NamelessClearedEdits(x);
    var cs := Diff("", Single("", x), Obj(map[]));
    assert |cs| == 1 && Capped(cs) == cs;
    assert |multiset(r)| == |multiset(cs)|;
    assert r[0] in multiset(cs);
    assert r[0] == AuditChange(Extend("", [""]), Num(x), Null, Removed);
    assert Extend("", [""]) == Extend("", [""][1..]) == "";
    var ws := EditsStored(r);
    assert ws[0] == EditOf(r[0]) && ws[0].keys == [] && ws == [ws[0]];
    WriteWhole(Single("", x), ws[0]);
  }
}
