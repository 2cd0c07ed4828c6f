/** Byte order on strings (Go's `<`), sorted key lists, and a sort with the contract of Go's
    `sort.Slice`: ordered and a permutation, but with no promise of stability. */
module Ordering {

  /** Go's `a < b` on strings. */
  predicate Less(a: string, b: string) {
    b != "" && (a == "" || a[0] < b[0] || (a[0] == b[0] && Less(a[1..], b[1..])))
  }

  predicate AtMost(a: string, b: string) {
    a == b || Less(a, b)
  }

  lemma {:induction false} LessTransitive(a: string, b: string, c: string)
    requires Less(a, b) && Less(b, c)
    ensures Less(a, c)
  {
    if a != "" && a[0] == b[0] && b[0] == c[0] {
      LessTransitive(a[1..], b[1..], c[1..]);
    }
  }

  lemma {:induction false} LessAsymmetric(a: string, b: string)
    requires Less(a, b)
    ensures a != b && !Less(b, a)
  {
    if a != "" && a[0] == b[0] {
      LessAsymmetric(a[1..], b[1..]);
    }
  }

  lemma {:induction false} LessTotal(a: string, b: string)
    ensures a == b || Less(a, b) || Less(b, a)
  {
    if a != "" && b != "" && a[0] == b[0] {
      LessTotal(a[1..], b[1..]);
      assert a == [a[0]] + a[1..] && b == [b[0]] + b[1..];
    }
  }

  lemma {:induction false} LessExtend(p: string, a: string, b: string)
    ensures Less(p + a, p + b) <==> Less(a, b)
  {
    if p == "" {
      assert p + a == a && p + b == b;
    } else {
      LessExtend(p[1..], a, b);
      assert (p + a)[1..] == p[1..] + a && (p + b)[1..] == p[1..] + b;
    }
  }

  /** Strictly increasing, hence without repeats. */
  ghost predicate Increasing(s: seq<string>) {
    forall i, j :: 0 <= i < j < |s| ==> Less(s[i], s[j])
  }

  lemma ConcatAssociative<T>(a: seq<T>, b: seq<T>, c: seq<T>)
    ensures (a + b) + c == a + (b + c)
  {
  }

  function Elements<T>(s: seq<T>): set<T> {
    set x | x in s
  }

  /** A finite set of strings is listed in increasing order in one way only. */
  lemma {:induction false} IncreasingUnique(s: seq<string>, t: seq<string>)
    requires Increasing(s) && Increasing(t)
    requires Elements(s) == Elements(t)
    ensures s == t
  {
    NoElements(s);
    NoElements(t);
    if s != [] {
      assert s[0] in Elements(s) && t[0] in Elements(t);
      HeadIsLeast(s, t[0]);
      HeadIsLeast(t, s[0]);
      if s[0] != t[0] {
        LessAsymmetric(s[0], t[0]);
        assert false;
      }
      TailElements(s);
      TailElements(t);
      IncreasingUnique(s[1..], t[1..]);
      assert s == [s[0]] + s[1..] && t == [t[0]] + t[1..];
    }
  }

  lemma NoElements<T>(s: seq<T>)
    ensures Elements(s) == {} <==> s == []
  {
    if s != [] {
      assert s[0] in Elements(s);
    }
  }

  lemma HeadIsLeast(s: seq<string>, x: string)
    requires Increasing(s) && x in s
    ensures AtMost(s[0], x)
  {
  }

  lemma TailElements(s: seq<string>)
    requires Increasing(s) && s != []
    ensures Elements(s[1..]) == Elements(s) - {s[0]}
  {
    forall x | x in s[1..]
      ensures x != s[0]
    {
      var j :| 0 < j < |s| && s[j] == x;
      LessAsymmetric(s[0], s[j]);
    }
    assert s == [s[0]] + s[1..];
  }

  lemma {:induction false} LeastExists(keys: set<string>) returns (m: string)
    requires keys != {}
    ensures m in keys && forall x :: x in keys ==> AtMost(m, x)
  {
    var k :| k in keys;
    var rest := keys - {k};
    m := k;
    if rest != {} {
      var r := LeastExists(rest);
      LessTotal(k, r);
      if Less(k, r) {
        forall x | x in rest
          ensures AtMost(k, x)
        {
          if x != r { LessTransitive(k, r, x); }
        }
      } else {
        m := r;
      }
    }
    assert forall x :: x in keys ==> x == k || x in rest;
  }

  /** The increasing listing of a set of keys: what `sort.Strings` leaves of the collected keys. */
  ghost function SortedKeys(keys: set<string>): (r: seq<string>)
    ensures Increasing(r) && Elements(r) == keys
  {
    if keys == {} then []
    else
      assert exists m :: m in keys && forall x :: x in keys ==> AtMost(m, x) by {
        var least := LeastExists(keys);
      }
      var m :| m in keys && forall x :: x in keys ==> AtMost(m, x);
      var rest := SortedKeys(keys - {m});
      assert forall i :: 0 <= i < |rest| ==> rest[i] in Elements(rest);
      assert Elements([m] + rest) == {m} + Elements(rest);
      [m] + rest
  }

  // ----- sorting by a string key -----

  ghost predicate SortedBy<T>(s: seq<T>, key: T -> string) {
    forall i, j :: 0 <= i < j < |s| ==> AtMost(key(s[i]), key(s[j]))
  }

  /** `r` is one of the results `sort.Slice` may produce for `s`. */
  ghost predicate IsSortOf<T>(r: seq<T>, s: seq<T>, key: T -> string) {
    multiset(r) == multiset(s) && SortedBy(r, key)
  }

  method SortBy<T>(s: seq<T>, key: T -> string) returns (r: seq<T>)
    ensures IsSortOf(r, s, key)
  {
    r := [];
    for n := 0 to |s|
      invariant multiset(r) == multiset(s[..n])
      invariant SortedBy(r, key)
    {
      r := Insert(r, s[n], key);
      assert s[..n + 1] == s[..n] + [s[n]];
    }
    assert s[..|s|] == s;
  }

  method Insert<T>(s: seq<T>, x: T, key: T -> string) returns (r: seq<T>)
    requires SortedBy(s, key)
    ensures multiset(r) == multiset(s) + multiset{x}
    ensures SortedBy(r, key)
  {
    var i := 0;
    while i < |s| && Less(key(s[i]), key(x))
      invariant 0 <= i <= |s|
      invariant forall j :: 0 <= j < i ==> AtMost(key(s[j]), key(x))
    {
      i := i + 1;
    }
    r := s[..i] + [x] + s[i..];
    assert s == s[..i] + s[i..];
    if i < |s| {
      LessTotal(key(s[i]), key(x));
    }
    InsertedSorted(s, x, i, key);
  }

  lemma InsertedSorted<T>(s: seq<T>, x: T, i: nat, key: T -> string)
    requires i <= |s| && SortedBy(s, key)
    requires forall j :: 0 <= j < i ==> AtMost(key(s[j]), key(x))
    requires i < |s| ==> AtMost(key(x), key(s[i]))
    ensures SortedBy(s[..i] + [x] + s[i..], key)
  {
    forall j | i <= j < |s|
      ensures AtMost(key(x), key(s[j]))
    {
      if key(x) != key(s[i]) && key(s[j]) != key(s[i]) { LessTransitive(key(x), key(s[i]), key(s[j])); }
    }
  }

  lemma RepeatCount<T>(s: seq<T>, i: nat, j: nat)
    requires i < j < |s| && s[i] == s[j]
    ensures multiset(s)[s[i]] >= 2
  {
    assert s == s[..j] + [s[j]] + s[j + 1..];
    assert s[..j][i] == s[i];
  }

  lemma SortedDistinctIncreasing(s: seq<string>)
    requires SortedBy(s, (x: string) => x)
    requires forall x :: multiset(s)[x] <= 1
    ensures Increasing(s)
  {
    forall i, j | 0 <= i < j < |s|
      ensures Less(s[i], s[j])
    {
      var key := (x: string) => x;
      assert AtMost(key(s[i]), key(s[j]));
      if s[i] == s[j] {
        RepeatCount(s, i, j);
        assert false;
      }
    }
  }

  /** Collects the keys of a Go map in whatever order iteration yields them, then `sort.Strings`. */
  method SortedNames(keys: set<string>) returns (names: seq<string>)
    ensures names == SortedKeys(keys)
  {
    var collected := [];
    var todo := keys;
    while todo != {}
      invariant todo <= keys
      invariant multiset(collected) == multiset(keys - todo)
    {
      var k :| k in todo;
      assert keys - (todo - {k}) == (keys - todo) + {k};
      collected := collected + [k];
      todo := todo - {k};
    }
    assert keys - todo == keys;
    var key := (x: string) => x;
    names := SortBy(collected, key);
    assert multiset(names) == multiset(keys);
    SortedDistinctIncreasing(names);
    forall x
      ensures x in names <==> x in keys
    {
      assert x in names <==> x in multiset(names);
    }
    IncreasingUnique(names, SortedKeys(keys));
  }

  // ----- multisets of sequences -----

  /** `s` with its element at `i` taken out. */
  function Without<T>(s: seq<T>, i: nat): seq<T>
    requires i < |s|
  {
    s[..i] + s[i + 1..]
  }

  lemma RemoveOne<T>(s: seq<T>, i: nat)
    requires i < |s|
    ensures multiset(Without(s, i)) == multiset(s) - multiset{s[i]}
    ensures s[i] in multiset(s)
  {
    assert s == s[..i] + [s[i]] + s[i + 1..];
  }

  /** A reordering begins with some element of the original and goes on with a reordering of the others. */
  lemma ReorderedHead<T>(r: seq<T>, s: seq<T>) returns (i: nat)
    requires r != [] && multiset(r) == multiset(s)
    ensures i < |s| && s[i] == r[0]
    ensures multiset(r[1..]) == multiset(Without(s, i))
  {
    assert r[0] in multiset(s);
    i :| 0 <= i < |s| && s[i] == r[0];
    RemoveOne(s, i);
    RemoveOne(r, 0);
    assert Without(r, 0) == r[1..];
  }

  lemma ReorderedEmpty<T>(s: seq<T>)
    requires multiset(s) == multiset{}
    ensures s == []
  {
    assert |multiset(s)| == |s|;
  }

  function MapSeq<T, U>(f: T -> U, s: seq<T>): seq<U> {
    seq(|s|, i requires 0 <= i < |s| => f(s[i]))
  }

  /** Reordering the arguments reorders the images. */
  lemma {:induction false} MapReordered<T, U>(f: T -> U, r: seq<T>, s: seq<T>)
    requires multiset(r) == multiset(s)
    ensures multiset(MapSeq(f, r)) == multiset(MapSeq(f, s))
    decreases |r|
  {
    if r == [] {
      ReorderedEmpty(s);
    } else {
      var i := ReorderedHead(r, s);
      MapReordered(f, r[1..], Without(s, i));
      MapWithout(f, s, i);
      MapWithout(f, r, 0);
      assert Without(r, 0) == r[1..];
    }
  }

  lemma MapWithout<T, U>(f: T -> U, s: seq<T>, i: nat)
    requires i < |s|
    ensures multiset(MapSeq(f, s)) == multiset(MapSeq(f, Without(s, i))) + multiset{f(s[i])}
  {
    var fs := MapSeq(f, s);
    RemoveOne(fs, i);
    assert Without(fs, i) == MapSeq(f, Without(s, i));
  }
}
