/** When the stored changes are a patch: places are stored as dotted paths, so keys that hold a dot, and the
    empty key at the top, are not read back as they were written (audit_compress.go, lines 147-153 and
    260-268). */
module AuditPaths {
  import opened Text
  import opened Ordering
  import opened JsonValue
  import opened AuditDiff
  import opened AuditMeaning
  import opened AuditPatch
  import opened AuditStored

  predicate Undotted(keys: seq<string>) {
    forall i | 0 <= i < |keys| :: '.' !in keys[i]
  }

  /** No recorded place goes through a key that holds a dot. */
  ghost predicate UndottedEdits(before: Json, after: Json) {
    forall e :: e in Edits("", before, after) ==> Undotted(e.keys)
  }

  /** Nothing changed under the empty key at the top, where a path would lose it. */
  ghost predicate NamelessAlike(before: Json, after: Json) {
    Erase("", Get(before, "")) == Erase("", Get(after, ""))
  }

  // ----- what a path is read back as -----

  /** A path is read back as at least as many keys as were written, and as more when one holds a dot. */
  lemma {:induction false} ReadLonger(keys: seq<string>)
    requires keys != []
    ensures |Split(Join(keys, "."), '.')| >= |keys|
    ensures !Undotted(keys) ==> |Split(Join(keys, "."), '.')| > |keys|
    decreases |keys|
  {
    SplitSingle(keys[0], '.');
    DottedSplits(keys[0]);
    if |keys| > 1 {
      ReadLonger(keys[1..]);
      SplitConcat(keys[0], Join(keys[1..], "."), '.');
      if '.' !in keys[0] && !Undotted(keys) {
        var i :| 0 <= i < |keys| && '.' in keys[i];
        assert keys[1..][i - 1] == keys[i];
      }
    }
  }

  lemma DottedSplits(k: string)
    ensures '.' in k ==> |Split(k, '.')| > 1
  {
    SplitSingle(k, '.');
    JoinSplit(k, '.');
  }

  lemma UndottedPrefix(p: seq<string>, q: seq<string>)
    requires p <= q && Undotted(q)
    ensures Undotted(p)
  {
    assert forall i :: 0 <= i < |p| ==> p[i] == q[i];
  }

  lemma PathOfKeys(keys: seq<string>)
    requires keys != [] && keys[0] != ""
    ensures Extend("", keys) == Join(keys, ".") && Extend("", keys) != ""
  {
    ExtendJoin(keys[0], keys[1..]);
    assert [keys[0]] + keys[1..] == keys;
  }

  /** Where the first key is not empty, a dot in some key is exactly what makes the path read differently. */
  lemma ReadKeys(keys: seq<string>)
    requires keys != [] ==> keys[0] != ""
    ensures Undotted(keys) ==> PathKeys(Extend("", keys)) == keys
    ensures !Undotted(keys) ==> |PathKeys(Extend("", keys))| > |keys|
    ensures Undotted(PathKeys(Extend("", keys)))
  {
    if Undotted(keys) {
      PathKeysExtend(keys);
    } else {
      PathOfKeys(keys);
      ReadLonger(keys);
      SplitSingle(Join(keys, "."), '.');
    }
  }

  // ----- a dotted place is never restored -----

  /** Of the edits with a dotted key one with the fewest keys. */
  lemma {:induction false} FewestKeys(es: seq<Edit>) returns (e: Edit)
    requires exists d :: d in es && !Undotted(d.keys)
    ensures e in es && !Undotted(e.keys)
    ensures forall d :: d in es && !Undotted(d.keys) ==> |e.keys| <= |d.keys|
    decreases |es|
  {
    if d :| d in es[1..] && !Undotted(d.keys) {
      e := FewestKeys(es[1..]);
      if !Undotted(es[0].keys) && |es[0].keys| < |e.keys| {
        e := es[0];
      }
    } else {
      e := es[0];
    }
    assert forall d :: d in es ==> d == es[0] || d in es[1..];
  }

  lemma KeptApart(before: Json, after: Json, kept: seq<Edit>, e: Edit, f: Edit)
    requires kept <= Edits("", before, after) && e in kept && f in kept && e != f
    ensures Apart(e.keys, f.keys)
  {
    EditsApart("", before, after);
    var es := Edits("", before, after);
    var i :| 0 <= i < |kept| && kept[i] == e;
    var j :| 0 <= j < |kept| && kept[j] == f;
    assert es[i] == e && es[j] == f;
  }

  /** The place a path is read back as is apart from the shortest dotted place. */
  lemma ReadApart(e: Edit, f: Edit)
    requires !Undotted(e.keys) && (f.keys != [] ==> f.keys[0] != "")
    requires if Undotted(f.keys) then Apart(e.keys, f.keys) else |e.keys| <= |f.keys|
    ensures Apart(PathKeys(Extend("", f.keys)), e.keys)
  {
    var read := PathKeys(Extend("", f.keys));
    ReadKeys(f.keys);
    if e.keys <= read { UndottedPrefix(e.keys, read); }
  }

  /** What a set of kept edits is read back as, in the order they were stored in. */
  lemma ReadOf(kept: seq<Edit>, r: seq<AuditChange>, w: Edit) returns (f: Edit)
    requires multiset(r) == multiset(Rendered("", kept)) && w in EditsStored(r)
    ensures f in kept && w.keys == PathKeys(Extend("", f.keys)) && w.after == f.after
  {
    var i :| 0 <= i < |r| && EditsStored(r)[i] == w;
    assert w == EditOf(r[i]);
    assert r[i] in multiset(r);
    assert r[i] in Rendered("", kept);
    var j :| 0 <= j < |kept| && Rendered("", kept)[j] == r[i];
    f := kept[j];
  }

  /** If every read place is apart from a recorded one, that one is not restored. */
  lemma UntouchedIsLost(before: Json, after: Json, e: Edit, ws: seq<Edit>)
    requires e in Edits("", before, after)
    requires forall i :: 0 <= i < |ws| ==> Apart(ws[i].keys, e.keys)
    ensures Erase("", ApplyEdits(before, ws)) != Erase("", after)
  {
    var u := ApplyEdits(before, ws);
    ApplyApart(before, ws, e.keys);
    EditsExact("", before, after, e);
    assert IsEdit("", u, after, e);
    EditsExact("", u, after, e);
    DiffEmptyIff("", u, after);
    assert |Diff("", u, after)| == |Edits("", u, after)|;
  }

  lemma DottedIsLost(before: Json, after: Json, kept: seq<Edit>, r: seq<AuditChange>)
    requires kept <= Edits("", before, after) && multiset(r) == multiset(Rendered("", kept))
    requires forall e :: e in kept && e.keys != [] ==> e.keys[0] != ""
    requires exists d :: d in kept && !Undotted(d.keys)
    ensures Erase("", ApplyChanges(before, r)) != Erase("", after)
  {
    var e := FewestKeys(kept);
    var ws := EditsStored(r);
    forall i | 0 <= i < |ws|
      ensures Apart(ws[i].keys, e.keys)
    {
      var f := ReadOf(kept, r, ws[i]);
      if Undotted(f.keys) { KeptApart(before, after, kept, e, f); }
      ReadApart(e, f);
    }
    UntouchedIsLost(before, after, e, ws);
  }

  // ----- the exact condition -----

  lemma SilentNoEdits(path: string, before: Json, after: Json)
    ensures Edits(path, before, after) == [] <==> Erase(path, before) == Erase(path, after)
  {
    DiffEmptyIff(path, before, after);
    assert |Diff(path, before, after)| == |Edits(path, before, after)|;
  }

  lemma NoNamelessEdit(before: Json, after: Json, e: Edit)
    requires NamelessAlike(before, after) && e in Edits("", before, after) && e.keys != []
    ensures e.keys[0] != ""
  {
    if e.keys[0] == "" {
      EditsExact("", before, after, e);
      IsEditDown("", before, after, e);
      var below := Edit(e.keys[1..], e.before, e.after);
      EditsExact("", Get(before, ""), Get(after, ""), below);
      SilentNoEdits("", Get(before, ""), Get(after, ""));
      assert false;
    }
  }

  function CappedEdits(es: seq<Edit>): seq<Edit> {
    if |es| > MAX_AUDIT_CHANGES then es[..MAX_AUDIT_CHANGES] else es
  }

  lemma CappedRendered(es: seq<Edit>)
    ensures Capped(Rendered("", es)) == Rendered("", CappedEdits(es))
  {
  }

  /** Undotted edits that were kept are read back; a lost one is apart from all of them. */
  lemma LostIsLost(before: Json, after: Json, r: seq<AuditChange>)
    requires IsStoredDiff(r, before, after) && |Edits("", before, after)| > MAX_AUDIT_CHANGES
    requires forall e :: e in CappedEdits(Edits("", before, after)) ==> ReadsBack(e.keys)
    ensures Erase("", ApplyChanges(before, r)) != Erase("", after)
  {
    var es := Edits("", before, after);
    var kept, lost := CappedEdits(es), es[MAX_AUDIT_CHANGES];
    CappedRendered(es);
    EditsApart("", before, after);
    var ws := EditsStored(r);
    forall i | 0 <= i < |ws|
      ensures Apart(ws[i].keys, lost.keys)
    {
      var f := ReadOf(kept, r, ws[i]);
      PathKeysExtend(f.keys);
      var j :| 0 <= j < |kept| && kept[j] == f;
      assert es[j] == f;
    }
    UntouchedIsLost(before, after, lost, ws);
  }

  /** What is stored is a patch exactly when the cap cut nothing off and no recorded place goes through a
      key that holds a dot. */
  lemma StoredDiffIsPatchIff(before: Json, after: Json, r: seq<AuditChange>)
    requires NamelessAlike(before, after) && IsStoredDiff(r, before, after)
    ensures Erase("", ApplyChanges(before, r)) == Erase("", after)
       <==> |Diff("", before, after)| <= 80 && UndottedEdits(before, after)
  {
    var es := Edits("", before, after);
    var kept := CappedEdits(es);
    CappedRendered(es);
    forall e | e in es && e.keys != []
      ensures e.keys[0] != ""
    {
      NoNamelessEdit(before, after, e);
    }
    assert |Diff("", before, after)| == |es|;
    if d :| d in kept && !Undotted(d.keys) {
      DottedIsLost(before, after, kept, r);
    } else if |es| > MAX_AUDIT_CHANGES {
      LostIsLost(before, after, r);
    } else {
      DiffIsPatch(before, after, r);
    }
  }

  /** With good keys the cap alone decides. */
  lemma GoodKeysPatchIff(before: Json, after: Json, r: seq<AuditChange>)
    requires GoodKeys(before) && GoodKeys(after) && IsStoredDiff(r, before, after)
    ensures Erase("", ApplyChanges(before, r)) == Erase("", after)
       <==> |Diff("", before, after)| <= MAX_AUDIT_CHANGES
  {
    GoodKeysReadBack(before, after);
    assert Get(before, "") == Null && Get(after, "") == Null;
    StoredDiffIsPatchIff(before, after, r);
  }

  // ----- changes under the empty key -----

  predicate AllEmpty(keys: seq<string>) {
    forall i | 0 <= i < |keys| :: keys[i] == ""
  }

  /** The keys a path keeps: leading empty ones leave no trace in it. */
  function Named(keys: seq<string>): seq<string> {
    if keys != [] && keys[0] == "" then Named(keys[1..]) else keys
  }

  lemma {:induction false} NamedFacts(keys: seq<string>)
    ensures Extend("", keys) == Extend("", Named(keys))
    ensures Named(keys) != [] ==> Named(keys)[0] != ""
    ensures Named(keys) == [] <==> AllEmpty(keys)
    ensures Undotted(keys) ==> Undotted(Named(keys))
    decreases |keys|
  {
    if keys != [] && keys[0] == "" {
      NamedFacts(keys[1..]);
      assert AllEmpty(keys) <==> AllEmpty(keys[1..]);
      assert Undotted(keys) ==> Undotted(keys[1..]);
    }
  }

  lemma ReadNamed(keys: seq<string>)
    requires Undotted(keys)
    ensures PathKeys(Extend("", keys)) == Named(keys)
    ensures Named(keys) != [] ==> Named(keys)[0] != ""
    ensures Named(keys) == [] <==> AllEmpty(keys)
  {
    NamedFacts(keys);
    ReadKeys(Named(keys));
  }

  /** A change under the empty key is recorded first of all. */
  lemma NamelessFirst(before: Json, after: Json)
    requires MapOrNull(before) && MapOrNull(after) && !NamelessAlike(before, after)
    ensures var es := Edits("", before, after); es != [] && es[0].keys != [] && es[0].keys[0] == ""
  {
    var keys := KeysOf(before) + KeysOf(after);
    var names := SortedKeys(keys);
    assert "" in Elements(names);
    HeadIsLeast(names, "");
    var below := Edits("", Get(before, ""), Get(after, ""));
    SilentNoEdits("", Get(before, ""), Get(after, ""));
    assert EditsOf("", names, before, after) == Under("", below) + EditsOf("", names[1..], before, after);
    assert Under("", below)[0].keys[0] == "";
  }

  /** Writes that replace the whole by `x`, or go below a named key, leave what `x` has under the empty key. */
  lemma {:induction false} WritesKeepNameless(v: Json, ws: seq<Edit>, x: Json)
    requires Get(v, "") == Get(x, "")
    requires forall i :: 0 <= i < |ws| ==>
      if ws[i].keys == [] then ws[i].after == x else ws[i].keys[0] != ""
    ensures Get(ApplyEdits(v, ws), "") == Get(x, "")
    decreases |ws|
  {
    if ws != [] {
      WritesKeepNameless(SetAt(v, ws[0].keys, ws[0].after), ws[1..], x);
    }
  }

  /** Down the empty keys erasing and reading commute. */
  lemma {:induction false} EraseDown(v: Json, keys: seq<string>)
    requires AllEmpty(keys) && forall n :: 0 <= n < |keys| ==> MapOrNull(GetAt(v, keys[..n]))
    ensures GetAt(Erase("", v), keys) == Erase("", GetAt(v, keys))
    decreases |keys|
  {
    if keys != [] {
      assert GetAt(v, keys[..0]) == v;
      EraseGet("", v, "");
      forall n | 0 <= n < |keys[1..]|
        ensures MapOrNull(GetAt(Get(v, ""), keys[1..][..n]))
      {
        assert keys[..n + 1][1..] == keys[1..][..n] && keys[..n + 1][0] == "";
        assert MapOrNull(GetAt(v, keys[..n + 1]));
      }
      EraseDown(Get(v, ""), keys[1..]);
    }
  }

  lemma {:induction false} DownIsLower(v: Json, keys: seq<string>)
    ensures Height(GetAt(v, keys)) <= Height(v)
    decreases |keys|
  {
    if keys != [] {
      HeightGet(v, keys[0]);
      DownIsLower(Get(v, keys[0]), keys[1..]);
    }
  }

  /** A tree cannot lie below itself. */
  lemma NotBelowItself(v: Json, keys: seq<string>)
    requires keys != [] && GetAt(v, keys) == v
    ensures !v.Obj?
  {
    HeightGet(v, keys[0]);
    DownIsLower(Get(v, keys[0]), keys[1..]);
  }

  lemma ErasedNameless(v: Json)
    ensures Get(Erase("", v), "") == Erase("", Get(v, ""))
  {
    if MapOrNull(v) { EraseGet("", v, ""); }
  }

  /** What lies down the empty keys of a tree that agrees with it on the first of them is nothing. */
  lemma CycleIsNull(top: Json, x: Json, keys: seq<string>)
    requires keys != [] && AllEmpty(keys) && GetAt(top, keys) == x && Get(top, "") == Get(x, "")
    ensures x == Null
  {
    assert GetAt(x, keys) == GetAt(Get(x, ""), keys[1..]);
    assert GetAt(top, keys) == GetAt(Get(top, ""), keys[1..]);
    NotBelowItself(x, keys);
    NothingInNull(keys[1..]);
  }

  /** Replacing the whole by what belongs under the empty key gives the right tree only when that is nothing. */
  lemma ReplacedIsLost(u: Json, after: Json, x: Json, keys: seq<string>)
    requires keys != [] && AllEmpty(keys) && GetAt(Erase("", after), keys) == Erase("", x)
    requires Get(u, "") == Get(x, "") && Erase("", u) == Erase("", after)
    ensures Erase("", x) == Null
  {
    ErasedNameless(u);
    ErasedNameless(x);
    CycleIsNull(Erase("", after), Erase("", x), keys);
  }

  /** The place of the change that is stored under the empty path. */
  ghost predicate StoredAsWhole(before: Json, after: Json, z: Edit) {
    z in Edits("", before, after) && z.keys != [] && AllEmpty(z.keys)
  }

  lemma OneStoredAsWhole(before: Json, after: Json, z: Edit, f: Edit)
    requires StoredAsWhole(before, after, z) && f in Edits("", before, after) && AllEmpty(f.keys)
    ensures f == z
  {
    EmptyComparable(f.keys, z.keys);
    EditsApart("", before, after);
    var es := Edits("", before, after);
    var i :| 0 <= i < |es| && es[i] == z;
    var j :| 0 <= j < |es| && es[j] == f;
  }

  lemma EmptyComparable(p: seq<string>, q: seq<string>)
    requires AllEmpty(p) && AllEmpty(q)
    ensures p <= q || q <= p
  {
    if |p| <= |q| {
      assert p <= q;
    } else {
      assert q <= p;
    }
  }

  /** What a kept change writes when it is read back: the whole, or something under a named key. */
  lemma KeptWrites(before: Json, after: Json, kept: seq<Edit>, r: seq<AuditChange>, w: Edit) returns (f: Edit)
    requires kept <= Edits("", before, after) && multiset(r) == multiset(Rendered("", kept))
    requires UndottedEdits(before, after) && w in EditsStored(r)
    ensures f in kept && f in Edits("", before, after) && w.after == f.after
    ensures w.keys == [] <==> AllEmpty(f.keys)
    ensures w.keys != [] ==> w.keys[0] != ""
  {
    f := ReadOf(kept, r, w);
    ReadNamed(f.keys);
  }

  /** The first of the changes sorted by path is the one stored under the empty path, when there is one. */
  lemma EmptyPathFirst(r: seq<AuditChange>, c: AuditChange)
    requires SortedBy(r, PathOf) && c in r && c.path == ""
    ensures r[0].path == ""
  {
    var i :| 0 <= i < |r| && r[i] == c;
    assert i > 0 ==> AtMost(PathOf(r[0]), PathOf(r[i]));
  }

  lemma WholeIsStored(before: Json, after: Json, kept: seq<Edit>, r: seq<AuditChange>, z: Edit)
    requires StoredAsWhole(before, after, z) && z in kept && UndottedEdits(before, after)
    requires kept <= Edits("", before, after) && IsSortOf(r, Rendered("", kept), PathOf)
    ensures Get(ApplyChanges(before, r), "") == Get(z.after, "")
  {
    var ws := EditsStored(r);
    ReadNamed(z.keys);
    NamedFacts(z.keys);
    var j :| 0 <= j < |kept| && kept[j] == z;
    var c := Rendered("", kept)[j];
    assert c in multiset(r);
    EmptyPathFirst(r, c);
    assert ws[0] == EditOf(r[0]);
    forall i | 0 <= i < |ws|
      ensures if ws[i].keys == [] then ws[i].after == z.after else ws[i].keys[0] != ""
    {
      var f := KeptWrites(before, after, kept, r, ws[i]);
      if ws[i].keys == [] { OneStoredAsWhole(before, after, z, f); }
    }
    WritesKeepNameless(z.after, ws[1..], z.after);
    assert ApplyEdits(before, ws) == ApplyEdits(z.after, ws[1..]);
  }

  lemma WholeErased(before: Json, after: Json, z: Edit)
    requires StoredAsWhole(before, after, z)
    ensures GetAt(Erase("", after), z.keys) == Erase("", z.after)
  {
    EditsExact("", before, after, z);
    EraseDown(after, z.keys);
  }

  /** Without a change stored under the empty path, one under the empty key is out of reach of all writes. */
  lemma NamelessIsLost(before: Json, after: Json, r: seq<AuditChange>, e: Edit)
    requires MapOrNull(before) && MapOrNull(after)
    requires UndottedEdits(before, after) && IsStoredDiff(r, before, after)
    requires e in Edits("", before, after) && e.keys != [] && e.keys[0] == ""
    requires forall f :: f in CappedEdits(Edits("", before, after)) ==> !StoredAsWhole(before, after, f)
    ensures Erase("", ApplyChanges(before, r)) != Erase("", after)
  {
    var kept := CappedEdits(Edits("", before, after));
    CappedRendered(Edits("", before, after));
    var ws := EditsStored(r);
    forall i | 0 <= i < |ws|
      ensures Apart(ws[i].keys, e.keys)
    {
      var f := KeptWrites(before, after, kept, r, ws[i]);
      EditsExact("", before, after, f);
      assert f.keys != [];
      ApartHeads(ws[i].keys, e.keys);
    }
    UntouchedIsLost(before, after, e, ws);
  }

  /** A change under the empty key at the top makes the stored diff a patch at most when it clears what is
      there altogether: only then nothing is lost with the key. */
  lemma NamelessPatchClears(before: Json, after: Json, r: seq<AuditChange>)
    requires MapOrNull(before) && MapOrNull(after) && !NamelessAlike(before, after)
    requires UndottedEdits(before, after) && IsStoredDiff(r, before, after)
    ensures Erase("", ApplyChanges(before, r)) == Erase("", after) ==>
      exists z :: StoredAsWhole(before, after, z) && Erase("", z.after) == Null
  {
    var es := Edits("", before, after);
    var kept := CappedEdits(es);
    CappedRendered(es);
    NamelessFirst(before, after);
    if z :| StoredAsWhole(before, after, z) && z in kept {
      WholeIsStored(before, after, kept, r, z);
      WholeErased(before, after, z);
      if Erase("", ApplyChanges(before, r)) == Erase("", after) {
        ReplacedIsLost(ApplyChanges(before, r), after, z.after, z.keys);
      }
    } else {
      NamelessIsLost(before, after, r, es[0]);
    }
  }
}
