/** What the diff means: which changes are recorded, when none are, and what they do to the before
    snapshot when applied as a patch. The reference is `Erase`, which forgets exactly what the diff
    is documented to ignore (audit_compress.go, lines 141-154 and 208-284). */
module AuditMeaning {
  import opened Ordering
  import opened JsonValue
  import opened AuditDiff

  /** The value with everything the diff cannot see removed: a skipped path becomes null, null
      entries are dropped, a map left empty is null, and arrays stay whole. */
  ghost function Erase(path: string, v: Json): Json
    decreases v
  {
    if SkipAuditPath(path) then Null
    else if v.Obj? then
      var m := v.fields;
      var kept := map k | k in m && Erase(Child(path, k), m[k]) != Null :: Erase(Child(path, k), m[k]);
      if kept == map[] then Null else Obj(kept)
    else v
  }

  /** Erasing a map commutes with reading its keys. */
  lemma EraseGet(path: string, v: Json, k: string)
    requires !SkipAuditPath(path) && MapOrNull(v)
    ensures MapOrNull(Erase(path, v))
    ensures Get(Erase(path, v), k) == Erase(Child(path, k), Get(v, k))
  {
    if v.Obj? {
      var m := v.fields;
      var kept := map j | j in m && Erase(Child(path, j), m[j]) != Null :: Erase(Child(path, j), m[j]);
      assert Erase(path, v) == if kept == map[] then Null else Obj(kept);
      if k in m && Erase(Child(path, k), m[k]) != Null {
        assert k in kept;
      }
    }
  }

  /** The erased form of a map is determined by its erased entries. */
  lemma EraseExtensional(path: string, u: Json, v: Json)
    requires MapOrNull(u) && MapOrNull(v)
    requires forall k :: Erase(Child(path, k), Get(u, k)) == Erase(Child(path, k), Get(v, k))
    ensures Erase(path, u) == Erase(path, v)
  {
    if !SkipAuditPath(path) {
      var eu, ev := Erase(path, u), Erase(path, v);
      forall k
        ensures Get(eu, k) == Get(ev, k)
      {
        EraseGet(path, u, k);
        EraseGet(path, v, k);
      }
      ErasedShape(path, u);
      ErasedShape(path, v);
      SameEntries(eu, ev);
    }
  }

  /** An erased map never holds a null entry and is never empty. */
  lemma ErasedShape(path: string, v: Json)
    requires MapOrNull(v)
    ensures var e := Erase(path, v);
      e.Null? || (e.Obj? && e.fields != map[] && forall k :: k in e.fields ==> e.fields[k] != Null)
  {
  }

  lemma SameEntries(u: Json, v: Json)
    requires u.Null? || (u.Obj? && u.fields != map[] && forall k :: k in u.fields ==> u.fields[k] != Null)
    requires v.Null? || (v.Obj? && v.fields != map[] && forall k :: k in v.fields ==> v.fields[k] != Null)
    requires forall k :: Get(u, k) == Get(v, k)
    ensures u == v
  {
    if u.Obj? {
      var k :| k in u.fields;
      assert Get(u, k) != Null;
    }
    if v.Obj? {
      var k :| k in v.fields;
      assert Get(v, k) != Null;
    }
    if u.Obj? && v.Obj? {
      assert forall k :: k in u.fields <==> Get(u, k) != Null;
      assert forall k :: k in v.fields <==> Get(v, k) != Null;
      assert u.fields == v.fields;
    }
  }

  // ----- when no change is recorded -----

  /** Below each of these keys the two sides erase alike. */
  ghost predicate AlikeBelow(path: string, names: seq<string>, before: Json, after: Json) {
    forall i :: 0 <= i < |names| ==>
      Erase(Child(path, names[i]), Get(before, names[i])) == Erase(Child(path, names[i]), Get(after, names[i]))
  }

  lemma AlikeCons(path: string, names: seq<string>, before: Json, after: Json)
    requires names != []
    ensures AlikeBelow(path, names, before, after) <==>
      && Erase(Child(path, names[0]), Get(before, names[0])) == Erase(Child(path, names[0]), Get(after, names[0]))
      && AlikeBelow(path, names[1..], before, after)
  {
    forall i | 0 < i < |names|
      ensures names[i] == names[1..][i - 1]
    {
    }
  }

  /** Two maps erase alike exactly when they do so below each of their keys. */
  lemma MapsAlikeIff(path: string, names: seq<string>, before: Json, after: Json)
    requires !SkipAuditPath(path) && MapOrNull(before) && MapOrNull(after)
    requires Elements(names) == KeysOf(before) + KeysOf(after)
    ensures AlikeBelow(path, names, before, after) <==> Erase(path, before) == Erase(path, after)
  {
    if AlikeBelow(path, names, before, after) {
      forall k
        ensures Erase(Child(path, k), Get(before, k)) == Erase(Child(path, k), Get(after, k))
      {
        if k in Elements(names) {
          var i :| 0 <= i < |names| && names[i] == k;
        }
      }
      EraseExtensional(path, before, after);
    } else {
      var i :| 0 <= i < |names| && Erase(Child(path, names[i]), Get(before, names[i]))
                                != Erase(Child(path, names[i]), Get(after, names[i]));
      EraseGet(path, before, names[i]);
      EraseGet(path, after, names[i]);
    }
  }

  /** The diff is silent exactly when the two sides are the same after erasure. */
  lemma {:induction false} DiffEmptyIff(path: string, before: Json, after: Json)
    ensures Diff(path, before, after) == [] <==> Erase(path, before) == Erase(path, after)
    decreases Height(before) + Height(after), 1, 0
  {
    if !SkipAuditPath(path) && before != after {
      if MapOrNull(before) && MapOrNull(after) {
        var names := SortedKeys(KeysOf(before) + KeysOf(after));
        EditsOfEmptyIff(path, names, before, after);
        MapsAlikeIff(path, names, before, after);
      } else {
        ScalarErase(path, before, after);
      }
    }
  }

  lemma ScalarErase(path: string, before: Json, after: Json)
    requires !SkipAuditPath(path) && before != after
    requires !MapOrNull(before) || !MapOrNull(after)
    ensures Erase(path, before) != Erase(path, after)
  {
  }

  lemma {:induction false} EditsOfEmptyIff(path: string, names: seq<string>, before: Json, after: Json)
    requires before.Obj? || after.Obj?
    ensures EditsOf(path, names, before, after) == [] <==> AlikeBelow(path, names, before, after)
    decreases Height(before) + Height(after), 0, |names|
  {
    if names != [] {
      var k := names[0];
      HeightGet(before, k);
      HeightGet(after, k);
      DiffEmptyIff(Child(path, k), Get(before, k), Get(after, k));
      EditsOfEmptyIff(path, names[1..], before, after);
      AlikeCons(path, names, before, after);
      var es := Edits(Child(path, k), Get(before, k), Get(after, k));
      assert |Diff(Child(path, k), Get(before, k), Get(after, k))| == |es|;
      assert |EditsOf(path, names, before, after)| == |es| + |EditsOf(path, names[1..], before, after)|;
    }
  }

  // ----- which changes are recorded -----

  function GetAt(v: Json, keys: seq<string>): Json
    decreases |keys|
  {
    if keys == [] then v else GetAt(Get(v, keys[0]), keys[1..])
  }

  /** What a recorded change must be, said without the traversal: no path on the way is skipped,
      every step goes through a map (or nothing) on both sides, the two sides differ at the end,
      and there at least one of them is a value of its own, neither null nor a map. */
  ghost predicate IsEdit(path: string, before: Json, after: Json, e: Edit) {
    && (forall n :: 0 <= n <= |e.keys| ==> !SkipAuditPath(Extend(path, e.keys[..n])))
    && (forall n :: 0 <= n < |e.keys| ==>
          MapOrNull(GetAt(before, e.keys[..n])) && MapOrNull(GetAt(after, e.keys[..n])))
    && e.before == GetAt(before, e.keys)
    && e.after == GetAt(after, e.keys)
    && e.before != e.after
    && !(MapOrNull(e.before) && MapOrNull(e.after))
  }

  lemma IsEditDown(path: string, before: Json, after: Json, e: Edit)
    requires e.keys != []
    ensures IsEdit(path, before, after, e) <==>
      && !SkipAuditPath(path) && MapOrNull(before) && MapOrNull(after)
      && IsEdit(Child(path, e.keys[0]), Get(before, e.keys[0]), Get(after, e.keys[0]),
                Edit(e.keys[1..], e.before, e.after))
  {
    var k, rest := e.keys[0], e.keys[1..];
    var below := Edit(rest, e.before, e.after);
    var b, a := Get(before, k), Get(after, k);
    forall n | 0 <= n <= |rest|
      ensures Extend(path, e.keys[..n + 1]) == Extend(Child(path, k), rest[..n])
      ensures GetAt(before, e.keys[..n + 1]) == GetAt(b, rest[..n])
      ensures GetAt(after, e.keys[..n + 1]) == GetAt(a, rest[..n])
    {
      assert e.keys[..n + 1][1..] == rest[..n];
    }
    assert e.keys[..0] == [];
    if IsEdit(path, before, after, e) {
      assert MapOrNull(GetAt(before, e.keys[..0])) && !SkipAuditPath(Extend(path, e.keys[..0]));
      assert IsEdit(Child(path, k), b, a, below);
    }
    if !SkipAuditPath(path) && MapOrNull(before) && MapOrNull(after) && IsEdit(Child(path, k), b, a, below) {
      forall n | 0 <= n <= |e.keys|
        ensures !SkipAuditPath(Extend(path, e.keys[..n]))
        ensures n < |e.keys| ==> MapOrNull(GetAt(before, e.keys[..n])) && MapOrNull(GetAt(after, e.keys[..n]))
      {
        if n > 0 {
          assert e.keys[..n] == e.keys[..(n - 1) + 1];
          assert !SkipAuditPath(Extend(Child(path, k), rest[..n - 1]));
        }
      }
    }
  }

  /** The diff records exactly the changes `IsEdit` describes. */
  lemma {:induction false} EditsExact(path: string, before: Json, after: Json, e: Edit)
    ensures e in Edits(path, before, after) <==> IsEdit(path, before, after, e)
    decreases Height(before) + Height(after), 1, 0
  {
    if e.keys == [] {
      EditHere(path, before, after, e);
    } else {
      IsEditDown(path, before, after, e);
      if !SkipAuditPath(path) && MapOrNull(before) && MapOrNull(after) && before != after {
        var k := e.keys[0];
        var names := SortedKeys(KeysOf(before) + KeysOf(after));
        EditsOfExact(path, names, before, after, e);
        if k !in names {
          assert k !in Elements(names);
          NoEditInsideNull(Child(path, k), Edit(e.keys[1..], e.before, e.after));
        }
      } else if before == after {
        SameGetAt(before, after, e.keys);
      }
    }
  }

  lemma EditHere(path: string, before: Json, after: Json, e: Edit)
    requires e.keys == []
    ensures e in Edits(path, before, after) <==> IsEdit(path, before, after, e)
  {
    assert e == Edit([], e.before, e.after);
    assert Extend(path, e.keys[..0]) == path;
    if MapOrNull(before) && MapOrNull(after) && e in Edits(path, before, after) {
      EditsOfKeys(path, SortedKeys(KeysOf(before) + KeysOf(after)), before, after, e);
    }
  }

  lemma SameGetAt(before: Json, after: Json, keys: seq<string>)
    requires before == after
    ensures GetAt(before, keys) == GetAt(after, keys)
  {
  }

  lemma NoEditInsideNull(path: string, e: Edit)
    ensures !IsEdit(path, Null, Null, e)
  {
  }

  lemma {:induction false} EditsOfKeys(path: string, names: seq<string>, before: Json, after: Json, e: Edit)
    requires before.Obj? || after.Obj?
    requires e in EditsOf(path, names, before, after)
    ensures e.keys != [] && e.keys[0] in names
  {
    var k := names[0];
    var es := Edits(Child(path, k), Get(before, k), Get(after, k));
    if e !in Under(k, es) {
      EditsOfKeys(path, names[1..], before, after, e);
    }
  }

  lemma {:induction false} EditsOfExact(path: string, names: seq<string>, before: Json, after: Json, e: Edit)
    requires before.Obj? || after.Obj?
    requires e.keys != []
    ensures e in EditsOf(path, names, before, after) <==>
      && e.keys[0] in names
      && IsEdit(Child(path, e.keys[0]), Get(before, e.keys[0]), Get(after, e.keys[0]),
                Edit(e.keys[1..], e.before, e.after))
    decreases Height(before) + Height(after), 0, |names|
  {
    if names != [] {
      var k := names[0];
      HeightGet(before, k);
      HeightGet(after, k);
      var below := Edit(e.keys[1..], e.before, e.after);
      var es := Edits(Child(path, k), Get(before, k), Get(after, k));
      EditsExact(Child(path, k), Get(before, k), Get(after, k), below);
      EditsOfExact(path, names[1..], before, after, e);
      UnderMembers(k, es, e);
    }
  }

  lemma UnderMembers(k: string, es: seq<Edit>, e: Edit)
    requires e.keys != []
    ensures e in Under(k, es) <==> e.keys[0] == k && Edit(e.keys[1..], e.before, e.after) in es
  {
    var below := Edit(e.keys[1..], e.before, e.after);
    if e.keys[0] == k && below in es {
      var i :| 0 <= i < |es| && es[i] == below;
      assert Under(k, es)[i].keys == e.keys;
    }
    if e in Under(k, es) {
      var i :| 0 <= i < |es| && Under(k, es)[i] == e;
      assert es[i].keys == e.keys[1..];
    }
  }
}
