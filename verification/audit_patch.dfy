/** The stored changes as a patch: applying them to the before snapshot, in any order, gives the
    after snapshot up to `Erase` (audit_compress.go, lines 141-154 and 231-280). */
module AuditPatch {
  import opened Ordering
  import opened JsonValue
  import opened AuditDiff
  import opened AuditMeaning

  /** Writes `x` at the place `keys` lead to, creating the maps that are missing on the way. */
  function SetAt(v: Json, keys: seq<string>, x: Json): Json
    decreases |keys|
  {
    if keys == [] then x else Put(v, keys[0], SetAt(Get(v, keys[0]), keys[1..], x))
  }

  function Put(v: Json, k: string, x: Json): Json {
    Obj((if v.Obj? then v.fields else map[])[k := x])
  }

  function ApplyEdits(v: Json, es: seq<Edit>): Json
    decreases |es|
  {
    if es == [] then v else ApplyEdits(SetAt(v, es[0].keys, es[0].after), es[1..])
  }

  lemma {:induction false} ApplyConcat(v: Json, xs: seq<Edit>, ys: seq<Edit>)
    ensures ApplyEdits(v, xs + ys) == ApplyEdits(ApplyEdits(v, xs), ys)
    decreases |xs|
  {
    if xs == [] {
      assert xs + ys == ys;
    } else {
      assert (xs + ys)[1..] == xs[1..] + ys;
      ApplyConcat(SetAt(v, xs[0].keys, xs[0].after), xs[1..], ys);
    }
  }

  lemma {:induction false} ApplyUnder(v: Json, k: string, es: seq<Edit>)
    ensures var r := ApplyEdits(v, Under(k, es));
      && Get(r, k) == ApplyEdits(Get(v, k), es)
      && (forall j :: j != k ==> Get(r, j) == Get(v, j))
      && (MapOrNull(v) ==> MapOrNull(r))
    decreases |es|
  {
    if es != [] {
      var e := es[0];
      assert Under(k, es)[0].keys[1..] == e.keys;
      assert Under(k, es)[1..] == Under(k, es[1..]);
      ApplyUnder(SetAt(v, [k] + e.keys, e.after), k, es[1..]);
    }
  }

  lemma {:induction false} EditsPatch(path: string, before: Json, after: Json)
    ensures Erase(path, ApplyEdits(before, Edits(path, before, after))) == Erase(path, after)
    decreases Height(before) + Height(after), 1, 0
  {
    if !SkipAuditPath(path) && before != after {
      if MapOrNull(before) && MapOrNull(after) {
        var names := SortedKeys(KeysOf(before) + KeysOf(after));
        EditsOfPatch(path, names, before, after, before);
        var r := ApplyEdits(before, Edits(path, before, after));
        forall k
          ensures Erase(Child(path, k), Get(r, k)) == Erase(Child(path, k), Get(after, k))
        {
          if k !in names {
            assert k !in Elements(names);
          }
        }
        EraseExtensional(path, r, after);
      } else {
        assert Edits(path, before, after) == [Edit([], before, after)];
      }
    }
  }

  lemma {:induction false} EditsOfPatch(path: string, names: seq<string>, before: Json, after: Json, v: Json)
    requires before.Obj? || after.Obj?
    requires Increasing(names) && MapOrNull(v)
    requires forall k :: k in names ==> Get(v, k) == Get(before, k)
    ensures var r := ApplyEdits(v, EditsOf(path, names, before, after));
      && MapOrNull(r)
      && (forall k :: k in names ==> Erase(Child(path, k), Get(r, k)) == Erase(Child(path, k), Get(after, k)))
      && (forall k :: k !in names ==> Get(r, k) == Get(v, k))
    decreases Height(before) + Height(after), 0, |names|
  {
    if names != [] {
      var k := names[0];
      HeightGet(before, k);
      HeightGet(after, k);
      var es := Edits(Child(path, k), Get(before, k), Get(after, k));
      EditsPatch(Child(path, k), Get(before, k), Get(after, k));
      ApplyUnder(v, k, es);
      ApplyConcat(v, Under(k, es), EditsOf(path, names[1..], before, after));
      TailElements(names);
      assert k !in names[1..] by { assert k !in Elements(names[1..]); }
      EditsOfPatch(path, names[1..], before, after, ApplyEdits(v, Under(k, es)));
      assert forall j :: j in names <==> j == k || j in names[1..];
    }
  }

  // ----- recorded places never overlap -----

  /** Neither place contains the other. */
  ghost predicate Apart(p: seq<string>, q: seq<string>) {
    !(p <= q) && !(q <= p)
  }

  ghost predicate AllApart(es: seq<Edit>) {
    forall i, j :: 0 <= i < j < |es| ==> Apart(es[i].keys, es[j].keys)
  }

  lemma {:induction false} EditsApart(path: string, before: Json, after: Json)
    ensures AllApart(Edits(path, before, after))
    decreases Height(before) + Height(after), 1, 0
  {
    if !SkipAuditPath(path) && before != after && MapOrNull(before) && MapOrNull(after) {
      EditsOfApart(path, SortedKeys(KeysOf(before) + KeysOf(after)), before, after);
    }
  }

  lemma {:induction false} EditsOfApart(path: string, names: seq<string>, before: Json, after: Json)
    requires before.Obj? || after.Obj?
    requires Increasing(names)
    ensures AllApart(EditsOf(path, names, before, after))
    decreases Height(before) + Height(after), 0, |names|
  {
    if names != [] {
      var k := names[0];
      HeightGet(before, k);
      HeightGet(after, k);
      var es := Edits(Child(path, k), Get(before, k), Get(after, k));
      var rest := EditsOf(path, names[1..], before, after);
      EditsApart(Child(path, k), Get(before, k), Get(after, k));
      EditsOfApart(path, names[1..], before, after);
      TailElements(names);
      JoinApart(path, names, es, rest, before, after);
    }
  }

  lemma JoinApart(path: string, names: seq<string>, es: seq<Edit>, rest: seq<Edit>, before: Json, after: Json)
    requires before.Obj? || after.Obj?
    requires names != [] && names[0] !in Elements(names[1..])
    requires AllApart(es) && rest == EditsOf(path, names[1..], before, after) && AllApart(rest)
    ensures AllApart(Under(names[0], es) + rest)
  {
    var k, all := names[0], Under(names[0], es) + rest;
    forall i, j | 0 <= i < j < |all|
      ensures Apart(all[i].keys, all[j].keys)
    {
      if j < |es| {
        ApartUnder(k, es[i].keys, es[j].keys);
      } else if i < |es| {
        EditsOfKeys(path, names[1..], before, after, rest[j - |es|]);
        ApartHeads(all[i].keys, all[j].keys);
      } else {
        assert all[i] == rest[i - |es|] && all[j] == rest[j - |es|];
      }
    }
  }

  lemma PrefixCons(k: string, p: seq<string>, q: seq<string>)
    ensures [k] + p <= [k] + q <==> p <= q
  {
    var kp, kq := [k] + p, [k] + q;
    assert kp[1..] == p && kq[1..] == q;
    if kp <= kq {
      assert kq[..|kp|] == kp;
      assert q[..|p|] == kq[1..|kp|];
    }
  }

  lemma ApartUnder(k: string, p: seq<string>, q: seq<string>)
    requires Apart(p, q)
    ensures Apart([k] + p, [k] + q)
  {
    PrefixCons(k, p, q);
    PrefixCons(k, q, p);
  }

  lemma ApartHeads(p: seq<string>, q: seq<string>)
    requires p != [] && q != [] && p[0] != q[0]
    ensures Apart(p, q)
  {
  }

  // ----- order of application -----

  lemma SetUnder(v: Json, k: string, p: seq<string>, x: Json)
    ensures SetAt(v, [k] + p, x) == Put(v, k, SetAt(Get(v, k), p, x))
  {
    assert ([k] + p)[1..] == p;
  }

  lemma SetTwiceSameHead(v: Json, k: string, p: seq<string>, x: Json, q: seq<string>, y: Json)
    ensures SetAt(SetAt(v, [k] + p, x), [k] + q, y) == Put(v, k, SetAt(SetAt(Get(v, k), p, x), q, y))
  {
    SetUnder(v, k, p, x);
    var w := SetAt(Get(v, k), p, x);
    SetUnder(Put(v, k, w), k, q, y);
    PutTwice(v, k, w, SetAt(w, q, y));
  }

  lemma SetTwiceOtherHead(v: Json, k: string, p: seq<string>, x: Json, l: string, q: seq<string>, y: Json)
    requires k != l
    ensures SetAt(SetAt(v, [k] + p, x), [l] + q, y)
         == Put(Put(v, k, SetAt(Get(v, k), p, x)), l, SetAt(Get(v, l), q, y))
  {
    SetUnder(v, k, p, x);
    var w := Put(v, k, SetAt(Get(v, k), p, x));
    assert Get(w, l) == Get(v, l);
    SetUnder(w, l, q, y);
  }

  lemma {:induction false} SetCommutes(v: Json, p: seq<string>, x: Json, q: seq<string>, y: Json)
    requires Apart(p, q)
    ensures SetAt(SetAt(v, p, x), q, y) == SetAt(SetAt(v, q, y), p, x)
    decreases |p|
  {
    var k, p', l, q' := p[0], p[1..], q[0], q[1..];
    assert p == [k] + p' && q == [l] + q';
    if k == l {
      PrefixCons(k, p', q');
      PrefixCons(k, q', p');
      SetCommutes(Get(v, k), p', x, q', y);
      SetTwiceSameHead(v, k, p', x, q', y);
      SetTwiceSameHead(v, k, q', y, p', x);
    } else {
      SetTwiceOtherHead(v, k, p', x, l, q', y);
      SetTwiceOtherHead(v, l, q', y, k, p', x);
      PutSwap(v, k, SetAt(Get(v, k), p', x), l, SetAt(Get(v, l), q', y));
    }
  }

  lemma PutTwice(v: Json, k: string, x: Json, y: Json)
    ensures Put(Put(v, k, x), k, y) == Put(v, k, y)
  {
  }

  lemma PutSwap(v: Json, k: string, x: Json, l: string, y: Json)
    requires k != l
    ensures Put(Put(v, k, x), l, y) == Put(Put(v, l, y), k, x)
  {
  }

  lemma {:induction false} ApplyFirst(v: Json, es: seq<Edit>, i: nat)
    requires i < |es| && AllApart(es)
    ensures ApplyEdits(v, es) == ApplyEdits(SetAt(v, es[i].keys, es[i].after), Without(es, i))
    decreases i
  {
    if i == 0 {
      assert Without(es, 0) == es[1..];
    } else {
      ApplyFirst(SetAt(v, es[0].keys, es[0].after), es[1..], i - 1);
      SetCommutes(v, es[0].keys, es[0].after, es[i].keys, es[i].after);
      assert Without(es, i)[1..] == Without(es[1..], i - 1);
    }
  }

  /** Changes at places that do not overlap can be applied in any order. */
  lemma {:induction false} AnyOrder(v: Json, es: seq<Edit>, rs: seq<Edit>)
    requires AllApart(es) && multiset(rs) == multiset(es)
    ensures ApplyEdits(v, rs) == ApplyEdits(v, es)
    decreases |rs|
  {
    if rs == [] {
      ReorderedEmpty(es);
    } else {
      var i := ReorderedHead(rs, es);
      ApplyFirst(v, es, i);
      WithoutApart(es, i);
      AnyOrder(SetAt(v, rs[0].keys, rs[0].after), Without(es, i), rs[1..]);
    }
  }

  lemma WithoutApart(es: seq<Edit>, i: nat)
    requires i < |es| && AllApart(es)
    ensures AllApart(Without(es, i))
  {
  }
}
