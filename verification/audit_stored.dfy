/** The stored form of a diff: dotted path strings, at most 80 changes, sorted by path with an
    unstable sort (audit_compress.go, lines 11-16 and 141-154). */
module AuditStored {
  import opened Text
  import opened Ordering
  import opened JsonValue
  import opened AuditDiff
  import opened AuditMeaning
  import opened AuditPatch

  const MAX_AUDIT_CHANGES := 80

  function PathOf(c: AuditChange): string {
    c.path
  }

  function Capped(cs: seq<AuditChange>): seq<AuditChange> {
    if |cs| > MAX_AUDIT_CHANGES then cs[..MAX_AUDIT_CHANGES] else cs
  }

  /** `r` may be returned for two normalised snapshots: the sort is not stable, so it need not be unique. */
  ghost predicate IsStoredDiff(r: seq<AuditChange>, before: Json, after: Json) {
    IsSortOf(r, Capped(Diff("", before, after)), PathOf)
  }

  // ----- reading a dotted path back -----

  predicate GoodKey(k: string) {
    k != "" && '.' !in k
  }

  /** Every key of every map inside `v` is non-empty and free of dots. */
  predicate GoodKeys(v: Json)
    decreases v
  {
    v.Obj? ==> forall k | k in v.fields :: GoodKey(k) && GoodKeys(v.fields[k])
  }

  /** The keys a stored path stands for. */
  function PathKeys(path: string): seq<string> {
    if path == "" then [] else Split(path, '.')
  }

  lemma {:induction false} ExtendJoin(path: string, keys: seq<string>)
    requires path != ""
    ensures Extend(path, keys) == Join([path] + keys, ".")
    decreases |keys|
  {
    if keys == [] {
      assert [path] + keys == [path];
    } else {
      var k, rest := keys[0], keys[1..];
      ExtendJoin(Child(path, k), rest);
      assert ([path] + keys)[1..] == keys;
      assert ([Child(path, k)] + rest)[1..] == rest;
    }
  }

  /** Keys that survive being written down as a dotted path and read back. */
  predicate ReadsBack(keys: seq<string>) {
    (keys != [] ==> keys[0] != "") && forall i | 0 <= i < |keys| :: '.' !in keys[i]
  }

  lemma PathKeysExtend(keys: seq<string>)
    requires ReadsBack(keys)
    ensures PathKeys(Extend("", keys)) == keys
  {
    if keys != [] {
      ExtendJoin(keys[0], keys[1..]);
      assert [keys[0]] + keys[1..] == keys;
      SplitJoin(keys, '.');
    }
  }

  lemma {:induction false} GoodPath(v: Json, keys: seq<string>)
    requires GoodKeys(v) && GetAt(v, keys) != Null
    ensures forall i :: 0 <= i < |keys| ==> GoodKey(keys[i])
    decreases |keys|
  {
    if keys != [] {
      NothingInNull(keys[1..]);
      GoodPath(Get(v, keys[0]), keys[1..]);
    }
  }

  lemma NothingInNull(keys: seq<string>)
    ensures GetAt(Null, keys) == Null
    decreases |keys|
  {
  }

  function EditOf(c: AuditChange): Edit {
    Edit(PathKeys(c.path), c.before, c.after)
  }

  function EditsStored(cs: seq<AuditChange>): seq<Edit> {
    MapSeq(EditOf, cs)
  }

  lemma StoredAt(es: seq<Edit>, i: nat)
    requires i < |es|
    requires PathKeys(Extend("", es[i].keys)) == es[i].keys
    ensures |EditsStored(Rendered("", es))| == |es| && EditsStored(Rendered("", es))[i] == es[i]
  {
    var c := Rendered("", es)[i];
    assert EditsStored(Rendered("", es))[i] == EditOf(c);
  }

  /** All recorded places survive. */
  ghost predicate AllReadBack(before: Json, after: Json) {
    forall e :: e in Edits("", before, after) ==> ReadsBack(e.keys)
  }

  /** With good keys they do. */
  lemma GoodKeysReadBack(before: Json, after: Json)
    requires GoodKeys(before) && GoodKeys(after)
    ensures AllReadBack(before, after)
  {
    forall e | e in Edits("", before, after)
      ensures ReadsBack(e.keys)
    {
      EditsExact("", before, after, e);
      if e.before != Null { GoodPath(before, e.keys); } else { GoodPath(after, e.keys); }
    }
  }

  /** Then nothing is lost by writing the keys down as a dotted path. */
  lemma PathsReadBack(before: Json, after: Json)
    requires AllReadBack(before, after)
    ensures EditsStored(Diff("", before, after)) == Edits("", before, after)
  {
    var es := Edits("", before, after);
    forall i | 0 <= i < |es|
      ensures EditsStored(Rendered("", es))[i] == es[i]
    {
      assert es[i] in es;
      PathKeysExtend(es[i].keys);
      StoredAt(es, i);
    }
  }

  /** Sets every stored path to its after value, in the order given. */
  function ApplyChanges(v: Json, cs: seq<AuditChange>): Json {
    ApplyEdits(v, EditsStored(cs))
  }

  // ----- changes that are left out stay visible -----

  lemma SetGet(v: Json, p: seq<string>, x: Json, l: string)
    requires p != []
    ensures Get(SetAt(v, p, x), l) == if l == p[0] then SetAt(Get(v, p[0]), p[1..], x) else Get(v, l)
  {
  }

  lemma {:induction false} SetApartGet(v: Json, p: seq<string>, x: Json, q: seq<string>)
    requires Apart(p, q)
    ensures GetAt(SetAt(v, p, x), q) == GetAt(v, q)
    decreases |p|
  {
    SetGet(v, p, x, q[0]);
    if p[0] == q[0] {
      ApartBelow(p[0], p, q);
      SetApartGet(Get(v, p[0]), p[1..], x, q[1..]);
    }
  }

  lemma ApartBelow(k: string, p: seq<string>, q: seq<string>)
    requires Apart(p, q) && p[0] == q[0] == k
    ensures Apart(p[1..], q[1..])
  {
    assert p == [k] + p[1..] && q == [k] + q[1..];
    PrefixCons(k, p[1..], q[1..]);
    PrefixCons(k, q[1..], p[1..]);
  }

  lemma {:induction false} SetBelowMap(v: Json, p: seq<string>, x: Json, q: seq<string>)
    requires !(p <= q) && MapOrNull(GetAt(v, q))
    ensures MapOrNull(GetAt(SetAt(v, p, x), q))
    decreases |q|
  {
    if q != [] && p[0] == q[0] {
      assert p == [p[0]] + p[1..] && q == [p[0]] + q[1..];
      PrefixCons(p[0], p[1..], q[1..]);
      SetBelowMap(Get(v, p[0]), p[1..], x, q[1..]);
    }
  }

  lemma PrefixOfPrefix(p: seq<string>, q: seq<string>, n: nat)
    requires n <= |q| && p <= q[..n]
    ensures p <= q
  {
  }

  lemma {:induction false} ApplyApart(v: Json, es: seq<Edit>, q: seq<string>)
    requires forall i :: 0 <= i < |es| ==> Apart(es[i].keys, q)
    ensures GetAt(ApplyEdits(v, es), q) == GetAt(v, q)
    ensures forall n :: 0 <= n < |q| && MapOrNull(GetAt(v, q[..n])) ==> MapOrNull(GetAt(ApplyEdits(v, es), q[..n]))
    decreases |es|
  {
    if es != [] {
      var e := es[0];
      SetApartGet(v, e.keys, e.after, q);
      forall n | 0 <= n < |q| && MapOrNull(GetAt(v, q[..n]))
        ensures MapOrNull(GetAt(SetAt(v, e.keys, e.after), q[..n]))
      {
        if e.keys <= q[..n] { PrefixOfPrefix(e.keys, q, n); }
        SetBelowMap(v, e.keys, e.after, q[..n]);
      }
      ApplyApart(SetAt(v, e.keys, e.after), es[1..], q);
    }
  }

  // ----- the stored diff as a patch -----

  /** Any reordering of the recorded changes turns before into after, up to erasure. */
  lemma DiffIsPatch(before: Json, after: Json, r: seq<AuditChange>)
    requires AllReadBack(before, after)
    requires multiset(r) == multiset(Diff("", before, after))
    ensures Erase("", ApplyChanges(before, r)) == Erase("", after)
  {
    var es := Edits("", before, after);
    PathsReadBack(before, after);
    MapReordered(EditOf, r, Diff("", before, after));
    EditsApart("", before, after);
    AnyOrder(before, es, EditsStored(r));
    EditsPatch("", before, after);
  }

  /** Every stored change is one the diff is meant to record, with its kind told by the null side. */
  lemma StoredChangesSound(before: Json, after: Json, r: seq<AuditChange>, c: AuditChange)
    requires IsStoredDiff(r, before, after) && c in r
    ensures exists keys :: c.path == Extend("", keys) && IsEdit("", before, after, Edit(keys, c.before, c.after))
    ensures c.kind == Added <==> c.before == Null
    ensures c.kind == Removed <==> c.after == Null
    ensures !SkipAuditPath(c.path)
  {
    var cs, es := Diff("", before, after), Edits("", before, after);
    assert c in multiset(Capped(cs));
    var i :| 0 <= i < |Capped(cs)| && Capped(cs)[i] == c;
    assert cs[i] == c;
    EditsExact("", before, after, es[i]);
    var e := es[i];
    assert c.path == Extend("", e.keys) && IsEdit("", before, after, Edit(e.keys, c.before, c.after));
    assert e.keys[..|e.keys|] == e.keys;
  }
}
