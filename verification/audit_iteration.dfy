/** The results of normalisation are exactly what the iteration orders of Go's maps can leave
    (audit_compress.go, lines 168-206): later writes overwrite earlier ones. */
module AuditIteration {
  import opened Ordering
  import opened JsonValue
  import opened AuditNormalize

  /** Visiting entry `k` of `m` writes `t`. */
  predicate Writes(m: map<string, Json>, k: string, t: string) {
    (k == t && Plain(m, t)) || (k == "_id" && Printed(m, t)) || (k == "_" && Lifted(m, t))
  }

  /** What visiting entry `k` may write to `t`. */
  ghost predicate Puts(m: map<string, Json>, k: string, t: string, x: Json, sprint: Json -> string)
    requires Writes(m, k, t)
  {
    if k == "_" then Normalizes(m["_"].fields[t], x, sprint)
    else if k == "_id" then x == Str(sprint(m["_id"]))
    else Normalizes(m[t], x, sprint)
  }

  /** Every entry of `m` once, in some order. */
  ghost predicate Lists(order: seq<string>, m: map<string, Json>) {
    && (forall k :: k in order <==> k in m)
    && (forall i, j :: 0 <= i < j < |order| ==> order[i] != order[j])
  }

  /** The entry at `i` is the last one to write `t`. */
  predicate LastToWrite(m: map<string, Json>, order: seq<string>, i: nat, t: string) {
    i < |order| && Writes(m, order[i], t) && forall j | i < j < |order| :: !Writes(m, order[j], t)
  }

  /** Visiting the entries in this order may leave `r`: later writes overwrite earlier ones. */
  ghost predicate OrderGives(m: map<string, Json>, order: seq<string>, r: map<string, Json>, sprint: Json -> string) {
    && Lists(order, m)
    && (forall t :: t in r <==> Written(m, t))
    && (forall t, i: nat :: t in r && LastToWrite(m, order, i, t) ==> Puts(m, order[i], t, r[t], sprint))
  }

  lemma {:induction false} LastWriter(m: map<string, Json>, order: seq<string>, n: nat, t: string) returns (i: nat)
    requires n <= |order| && exists j :: 0 <= j < n && Writes(m, order[j], t)
    requires forall j :: n <= j < |order| ==> !Writes(m, order[j], t)
    ensures LastToWrite(m, order, i, t)
    decreases n
  {
    if Writes(m, order[n - 1], t) {
      i := n - 1;
    } else {
      i := LastWriter(m, order, n - 1, t);
    }
  }

  lemma OrderIsResult(m: map<string, Json>, order: seq<string>, r: map<string, Json>, sprint: Json -> string)
    requires OrderGives(m, order, r, sprint)
    ensures Normalizes(Obj(m), Obj(r), sprint)
  {
    forall t | t in r
      ensures Justified(m, t, r[t], sprint)
    {
      var k := if Plain(m, t) then t else if Printed(m, t) then "_id" else "_";
      assert k in order && Writes(m, k, t);
      var i := LastWriter(m, order, |order|, t);
      assert Puts(m, order[i], t, r[t], sprint);
    }
  }

  /** The plain entries whose own value `r` holds. */
  ghost function Winners(m: map<string, Json>, r: map<string, Json>, sprint: Json -> string): set<string> {
    set t | t in m.Keys && t in r && Plain(m, t) && Normalizes(m[t], r[t], sprint)
  }

  ghost function Middle(m: map<string, Json>, r: map<string, Json>, sprint: Json -> string): seq<string> {
    if "_" in m && "_id" in m then
      (if "id" in r && r["id"] == Str(sprint(m["_id"])) then ["_", "_id"] else ["_id", "_"])
    else if "_" in m then ["_"]
    else if "_id" in m then ["_id"]
    else []
  }

  /** An order that leaves `r`: losers first, then the shared entries, then the winners. */
  ghost function OrderFor(m: map<string, Json>, r: map<string, Json>, sprint: Json -> string): seq<string> {
    var won := Winners(m, r, sprint);
    SortedKeys(m.Keys - won - {"_", "_id"}) + Middle(m, r, sprint) + SortedKeys(won)
  }

  ghost predicate Distinct(s: seq<string>) {
    forall i, j :: 0 <= i < j < |s| ==> s[i] != s[j]
  }

  lemma SortedLists(keys: set<string>)
    ensures forall k :: k in SortedKeys(keys) <==> k in keys
    ensures Distinct(SortedKeys(keys))
  {
    var s := SortedKeys(keys);
    assert forall k :: k in s <==> k in Elements(s);
    forall i, j | 0 <= i < j < |s|
      ensures s[i] != s[j]
    {
      LessAsymmetric(s[i], s[j]);
    }
  }

  lemma DistinctConcat(a: seq<string>, b: seq<string>)
    requires Distinct(a) && Distinct(b) && forall k :: k in a ==> k !in b
    ensures Distinct(a + b)
  {
    forall i, j | 0 <= i < j < |a + b|
      ensures (a + b)[i] != (a + b)[j]
    {
      if i < |a| <= j { assert a[i] in a && b[j - |a|] in b; }
    }
  }

  lemma OrderLists(m: map<string, Json>, r: map<string, Json>, sprint: Json -> string)
    ensures Lists(OrderFor(m, r, sprint), m)
  {
    var won, mid := Winners(m, r, sprint), Middle(m, r, sprint);
    var lost := m.Keys - won - {"_", "_id"};
    SortedLists(won);
    SortedLists(lost);
    MiddleLists(m, r, sprint);
    DistinctConcat(SortedKeys(lost), mid);
    DistinctConcat(SortedKeys(lost) + mid, SortedKeys(won));
  }

  lemma MiddleLists(m: map<string, Json>, r: map<string, Json>, sprint: Json -> string)
    ensures Distinct(Middle(m, r, sprint))
    ensures forall k :: k in Middle(m, r, sprint) <==> k in m && k in {"_", "_id"}
  {
  }

  /** The last of the shared entries to write a key that no winner holds put there what `r` holds. */
  lemma SharedDecide(m: map<string, Json>, r: map<string, Json>, sprint: Json -> string, n: nat, t: string)
    requires Normalizes(Obj(m), Obj(r), sprint) && t in r && t !in Winners(m, r, sprint)
    requires LastToWrite(m, Middle(m, r, sprint), n, t)
    ensures Puts(m, Middle(m, r, sprint)[n], t, r[t], sprint)
  {
    var mid := Middle(m, r, sprint);
    MiddleLists(m, r, sprint);
    assert mid[n] in mid;
    assert Plain(m, t) ==> !Normalizes(m[t], r[t], sprint);
    assert |mid| == 2 ==> mid[0] != mid[1];
  }

  /** A loser is never the last to write, as what `r` holds came from a shared entry. */
  lemma LoserIsFollowed(m: map<string, Json>, r: map<string, Json>, sprint: Json -> string, t: string) returns (n: nat)
    requires Normalizes(Obj(m), Obj(r), sprint) && t in r && t !in Winners(m, r, sprint)
    ensures n < |Middle(m, r, sprint)| && Writes(m, Middle(m, r, sprint)[n], t)
  {
    MiddleLists(m, r, sprint);
    assert Plain(m, t) ==> !Normalizes(m[t], r[t], sprint);
    var k := if Printed(m, t) then "_id" else "_";
    assert k in Middle(m, r, sprint);
    n :| 0 <= n < |Middle(m, r, sprint)| && Middle(m, r, sprint)[n] == k;
  }

  /** A plain key listed at the end is written last by its own entry. */
  lemma WinnerIsLast(m: map<string, Json>, front: seq<string>, back: seq<string>, i: nat, t: string)
    requires t in back && Plain(m, t) && forall k :: k in back ==> Plain(m, k)
    requires LastToWrite(m, front + back, i, t)
    ensures (front + back)[i] == t
  {
    var j :| 0 <= j < |back| && back[j] == t;
    assert (front + back)[|front| + j] == t;
    assert i >= |front| && (front + back)[i] == back[i - |front|];
    assert back[i - |front|] in back;
  }

  lemma InThree(a: seq<string>, b: seq<string>, c: seq<string>, i: nat)
    requires i < |a + b + c|
    ensures i < |a| ==> (a + b + c)[i] == a[i] && a[i] in a
    ensures |a| <= i < |a| + |b| ==> (a + b + c)[i] == b[i - |a|] && b[i - |a|] in b
    ensures |a| + |b| <= i ==> (a + b + c)[i] == c[i - |a| - |b|] && c[i - |a| - |b|] in c
  {
  }

  lemma LastInOrder(m: map<string, Json>, r: map<string, Json>, sprint: Json -> string, i: nat, t: string)
    requires Normalizes(Obj(m), Obj(r), sprint) && t in r
    requires LastToWrite(m, OrderFor(m, r, sprint), i, t)
    ensures Puts(m, OrderFor(m, r, sprint)[i], t, r[t], sprint)
  {
    var won, mid := Winners(m, r, sprint), Middle(m, r, sprint);
    var front, back := SortedKeys(m.Keys - won - {"_", "_id"}), SortedKeys(won);
    SortedLists(won);
    SortedLists(m.Keys - won - {"_", "_id"});
    InThree(front, mid, back, i);
    if t in won {
      WinnerIsLast(m, front + mid, back, i, t);
    } else if i < |front| {
      var n := LoserIsFollowed(m, r, sprint, t);
      InThree(front, mid, back, |front| + n);
    } else if i < |front| + |mid| {
      forall n | i - |front| < n < |mid|
        ensures !Writes(m, mid[n], t)
      {
        InThree(front, mid, back, |front| + n);
      }
      SharedDecide(m, r, sprint, i - |front|, t);
    }
  }

  /** A result of normalising a map is what visiting its entries in some order leaves, and conversely. */
  lemma ResultsAreOrders(m: map<string, Json>, r: map<string, Json>, sprint: Json -> string)
    ensures Normalizes(Obj(m), Obj(r), sprint) <==> exists order :: OrderGives(m, order, r, sprint)
  {
    if Normalizes(Obj(m), Obj(r), sprint) {
      var order := OrderFor(m, r, sprint);
      OrderLists(m, r, sprint);
      forall t, i: nat | t in r && LastToWrite(m, order, i, t)
        ensures Puts(m, order[i], t, r[t], sprint)
      {
        LastInOrder(m, r, sprint, i, t);
      }
      assert OrderGives(m, order, r, sprint);
    }
    if order :| OrderGives(m, order, r, sprint) {
      OrderIsResult(m, order, r, sprint);
    }
  }
}
