/** Traversal order against byte order of the dotted paths: when keys use only bytes above '.', the
    sort in DiffAuditJSON has nothing to do and the cap keeps the smallest paths
    (audit_compress.go, lines 147-153 and 252-269). */
module AuditOrder {
  import opened Ordering
  import opened JsonValue
  import opened AuditDiff
  import opened AuditMeaning
  import opened AuditStored

  /** A non-empty key all of whose bytes sort after the path separator. */
  predicate HighKey(k: string) {
    k != "" && forall i | 0 <= i < |k| :: '.' < k[i]
  }

  predicate HighKeys(v: Json)
    decreases v
  {
    v.Obj? ==> forall k | k in v.fields :: HighKey(k) && HighKeys(v.fields[k])
  }

  /** What may follow a key in a path: nothing, or a dot and more. */
  predicate PathTail(t: string) {
    t == "" || t[0] == '.'
  }

  lemma {:induction false} KeysDecide(k: string, l: string, t: string, u: string)
    requires Less(k, l) && PathTail(t) && PathTail(u)
    requires forall i :: 0 <= i < |l| ==> '.' < l[i]
    ensures Less(k + t, l + u)
    decreases |k|
  {
    assert (l + u)[0] == l[0];
    if k == "" {
      assert k + t == t;
    } else {
      assert (k + t)[0] == k[0];
      if k[0] == l[0] {
        KeysDecide(k[1..], l[1..], t, u);
        assert (k + t)[1..] == k[1..] + t && (l + u)[1..] == l[1..] + u;
      }
    }
  }

  /** Going down only appends to the path. */
  lemma {:induction false} ExtendTail(path: string, keys: seq<string>) returns (t: string)
    requires path != ""
    ensures Extend(path, keys) == path + t && PathTail(t)
    decreases |keys|
  {
    if keys == [] {
      t := "";
    } else {
      var u := ExtendTail(Child(path, keys[0]), keys[1..]);
      t := "." + keys[0] + u;
      assert path + "." + keys[0] + u == path + t;
    }
  }

  /** Below one path, a smaller first key gives a smaller path whatever comes after. */
  lemma BranchesOrdered(path: string, p: seq<string>, q: seq<string>)
    requires p != [] && q != [] && Less(p[0], q[0]) && HighKey(p[0]) && HighKey(q[0])
    ensures Less(Extend(path, p), Extend(path, q))
  {
    var t := ExtendTail(Child(path, p[0]), p[1..]);
    var u := ExtendTail(Child(path, q[0]), q[1..]);
    KeysDecide(p[0], q[0], t, u);
    if path != "" {
      var front := path + ".";
      LessExtend(front, p[0] + t, q[0] + u);
      assert Child(path, p[0]) + t == front + (p[0] + t);
      assert Child(path, q[0]) + u == front + (q[0] + u);
    }
  }

  ghost predicate PathsIncrease(path: string, es: seq<Edit>) {
    forall i, j :: 0 <= i < j < |es| ==> Less(Extend(path, es[i].keys), Extend(path, es[j].keys))
  }

  lemma HighGet(v: Json, k: string)
    requires HighKeys(v)
    ensures HighKeys(Get(v, k))
    ensures k in KeysOf(v) ==> HighKey(k)
  {
  }

  lemma {:induction false} EditsIncrease(path: string, before: Json, after: Json)
    requires HighKeys(before) && HighKeys(after)
    ensures PathsIncrease(path, Edits(path, before, after))
    decreases Height(before) + Height(after), 1, 0
  {
    if !SkipAuditPath(path) && before != after && MapOrNull(before) && MapOrNull(after) {
      var names := SortedKeys(KeysOf(before) + KeysOf(after));
      forall k | k in names
        ensures HighKey(k)
      {
        assert k in Elements(names);
        HighGet(before, k);
        HighGet(after, k);
      }
      EditsOfIncrease(path, names, before, after);
    }
  }

  lemma {:induction false} EditsOfIncrease(path: string, names: seq<string>, before: Json, after: Json)
    requires before.Obj? || after.Obj?
    requires HighKeys(before) && HighKeys(after)
    requires Increasing(names) && forall k :: k in names ==> HighKey(k)
    ensures PathsIncrease(path, EditsOf(path, names, before, after))
    decreases Height(before) + Height(after), 0, |names|
  {
    if names != [] {
      var k := names[0];
      HeightGet(before, k);
      HeightGet(after, k);
      HighGet(before, k);
      HighGet(after, k);
      var es := Edits(Child(path, k), Get(before, k), Get(after, k));
      var rest := EditsOf(path, names[1..], before, after);
      EditsIncrease(Child(path, k), Get(before, k), Get(after, k));
      EditsOfIncrease(path, names[1..], before, after);
      JoinBranches(path, names, es, rest, before, after);
    }
  }

  lemma JoinBranches(path: string, names: seq<string>, es: seq<Edit>, rest: seq<Edit>, before: Json, after: Json)
    requires before.Obj? || after.Obj?
    requires names != [] && Increasing(names) && forall k :: k in names ==> HighKey(k)
    requires PathsIncrease(Child(path, names[0]), es)
    requires rest == EditsOf(path, names[1..], before, after) && PathsIncrease(path, rest)
    ensures PathsIncrease(path, Under(names[0], es) + rest)
  {
    var k, all := names[0], Under(names[0], es) + rest;
    forall i, j | 0 <= i < j < |all|
      ensures Less(Extend(path, all[i].keys), Extend(path, all[j].keys))
    {
      if j < |es| {
        assert all[i].keys[1..] == es[i].keys && all[j].keys[1..] == es[j].keys;
      } else if i < |es| {
        EditsOfKeys(path, names[1..], before, after, rest[j - |es|]);
        BranchesOrdered(path, all[i].keys, all[j].keys);
      } else {
        assert all[i] == rest[i - |es|] && all[j] == rest[j - |es|];
      }
    }
  }

  // ----- consequences for what is stored -----

  ghost predicate StrictBy<T>(s: seq<T>, key: T -> string) {
    forall i, j :: 0 <= i < j < |s| ==> Less(key(s[i]), key(s[j]))
  }

  /** A sorted reordering of a strictly increasing sequence starts with its first element. */
  lemma StrictSortHead<T>(r: seq<T>, s: seq<T>, key: T -> string, i: nat)
    requires StrictBy(s, key) && IsSortOf(r, s, key)
    requires r != [] && i < |s| && s[i] == r[0]
    ensures i == 0
  {
    assert s[0] in multiset(r);
    var j :| 0 <= j < |r| && r[j] == s[0];
    if i > 0 {
      assert Less(key(s[0]), key(s[i]));
      assert AtMost(key(r[0]), key(r[j]));
      LessAsymmetric(key(s[0]), key(s[i]));
      assert false;
    }
  }

  /** A strictly increasing sequence has no other sorted reordering. */
  lemma {:induction false} StrictSortUnique<T>(r: seq<T>, s: seq<T>, key: T -> string)
    requires StrictBy(s, key) && IsSortOf(r, s, key)
    ensures r == s
    decreases |r|
  {
    if r == [] {
      ReorderedEmpty(s);
    } else {
      var i := ReorderedHead(r, s);
      StrictSortHead(r, s, key, i);
      assert Without(s, 0) == s[1..];
      StrictSortUnique(r[1..], s[1..], key);
      assert r == [r[0]] + r[1..] && s == [s[0]] + s[1..];
    }
  }

  /** With high keys the stored diff is the traversal itself, cut at 80: strictly increasing paths,
      each smaller than every path that was cut off. */
  lemma StoredInTraversalOrder(before: Json, after: Json, r: seq<AuditChange>)
    requires HighKeys(before) && HighKeys(after)
    requires IsStoredDiff(r, before, after)
    ensures r == Capped(Diff("", before, after))
    ensures forall i, j :: 0 <= i < j < |r| ==> Less(r[i].path, r[j].path)
    ensures forall i, j :: 0 <= i < |r| <= j < |Diff("", before, after)| ==>
      Less(r[i].path, Diff("", before, after)[j].path)
  {
    var cs := Diff("", before, after);
    EditsIncrease("", before, after);
    assert StrictBy(cs, PathOf);
    StrictSortUnique(r, Capped(cs), PathOf);
  }
}
