/** What pruning keeps out of the record and what it does not: paths are pruned, but a value that is recorded
    whole, a map against a scalar or an array, keeps the pruned keys inside it (audit_compress.go, lines
    208-280). */
module AuditPrivate {
  import opened Text
  import opened JsonValue
  import opened AuditDiff
  import opened AuditMeaning
  import AuditWide

  /** What is left of a value when pruned keys are removed everywhere, inside arrays as well; null entries
      and empty maps are nothing, as in `Erase`. */
  ghost function Public(path: string, v: Json): Json
    decreases v
  {
    if SkipAuditPath(path) then Null
    else match v
      case Obj(m) =>
        var kept := map k | k in m && Public(Child(path, k), m[k]) != Null :: Public(Child(path, k), m[k]);
        if kept == map[] then Null else Obj(kept)
      case Arr(xs) => Arr(seq(|xs|, i requires 0 <= i < |xs| => Public(path, xs[i])))
      case _ => v
  }

  /** Two values agree outside pruned places. */
  ghost predicate AgreeOutside(path: string, v: Json, w: Json) {
    Public(path, v) == Public(path, w)
  }

  predicate Scalar(v: Json) {
    !MapOrNull(v) && !v.Arr?
  }

  lemma PublicKind(path: string, v: Json)
    requires !SkipAuditPath(path)
    ensures MapOrNull(Public(path, v)) <==> MapOrNull(v)
    ensures Public(path, v).Arr? <==> v.Arr?
    ensures Scalar(v) ==> Public(path, v) == v
  {
  }

  lemma PublicGet(path: string, v: Json, k: string)
    requires !SkipAuditPath(path) && MapOrNull(v)
    ensures Get(Public(path, v), k) == Public(Child(path, k), Get(v, k))
  {
    if v.Obj? {
      var m := v.fields;
      var kept := map j | j in m && Public(Child(path, j), m[j]) != Null :: Public(Child(path, j), m[j]);
      assert Public(path, v) == if kept == map[] then Null else Obj(kept);
      if k in m && Public(Child(path, k), m[k]) != Null {
        assert k in kept;
      }
    }
  }

  /** Values that agree are of the same kind, and are the same when they are scalars. */
  lemma AgreeKind(path: string, v: Json, w: Json)
    requires !SkipAuditPath(path) && AgreeOutside(path, v, w)
    ensures (MapOrNull(v) <==> MapOrNull(w)) && (v.Arr? <==> w.Arr?) && (Scalar(v) ==> v == w)
  {
    PublicKind(path, v);
    PublicKind(path, w);
  }

  /** The walk gets as far as this place: nothing on the way is pruned or anything but maps. */
  ghost predicate Reached(path: string, before: Json, after: Json, keys: seq<string>)
    decreases |keys|
  {
    && !SkipAuditPath(path)
    && (keys != [] ==>
          && MapOrNull(before) && MapOrNull(after)
          && Reached(Child(path, keys[0]), Get(before, keys[0]), Get(after, keys[0]), keys[1..]))
  }

  /** A change is recorded at this place. */
  ghost predicate RecordedAt(before: Json, after: Json, keys: seq<string>) {
    Edit(keys, GetAt(before, keys), GetAt(after, keys)) in Edits("", before, after)
  }

  lemma {:induction false} IsEditReached(path: string, before: Json, after: Json, e: Edit)
    ensures IsEdit(path, before, after, e) <==>
      && Reached(path, before, after, e.keys)
      && e.before == GetAt(before, e.keys) && e.after == GetAt(after, e.keys)
      && e.before != e.after && !(MapOrNull(e.before) && MapOrNull(e.after))
    decreases |e.keys|
  {
    if e.keys == [] {
      assert e.keys[..0] == [] && Extend(path, e.keys[..0]) == path;
    } else {
      var k := e.keys[0];
      IsEditDown(path, before, after, e);
      IsEditReached(Child(path, k), Get(before, k), Get(after, k), Edit(e.keys[1..], e.before, e.after));
    }
  }

  /** Snapshots that agree outside pruned places are walked alike and agree wherever the walk gets. */
  lemma {:induction false} AgreeDown(path: string, b: Json, a: Json, c: Json, d: Json, keys: seq<string>)
    requires AgreeOutside(path, b, c) && AgreeOutside(path, a, d) && Reached(path, b, a, keys)
    ensures Reached(path, c, d, keys) && !SkipAuditPath(Extend(path, keys))
    ensures AgreeOutside(Extend(path, keys), GetAt(b, keys), GetAt(c, keys))
    ensures AgreeOutside(Extend(path, keys), GetAt(a, keys), GetAt(d, keys))
    decreases |keys|
  {
    if keys != [] {
      var k := keys[0];
      AgreeKind(path, b, c);
      AgreeKind(path, a, d);
      PublicGet(path, b, k);
      PublicGet(path, c, k);
      PublicGet(path, a, k);
      PublicGet(path, d, k);
      AgreeDown(Child(path, k), Get(b, k), Get(a, k), Get(c, k), Get(d, k), keys[1..]);
    }
  }

  /** The record, said by the walk. */
  lemma EditMeaning(before: Json, after: Json, e: Edit)
    ensures e in Edits("", before, after) <==>
      && Reached("", before, after, e.keys)
      && e.before == GetAt(before, e.keys) && e.after == GetAt(after, e.keys)
      && e.before != e.after && !(MapOrNull(e.before) && MapOrNull(e.after))
  {
    EditsExact("", before, after, e);
    IsEditReached("", before, after, e);
  }

  lemma RecordedMeaning(before: Json, after: Json, keys: seq<string>)
    ensures RecordedAt(before, after, keys) <==>
      && Reached("", before, after, keys) && GetAt(before, keys) != GetAt(after, keys)
      && !(MapOrNull(GetAt(before, keys)) && MapOrNull(GetAt(after, keys)))
  {
    EditMeaning(before, after, Edit(keys, GetAt(before, keys), GetAt(after, keys)));
  }

  /** What is recorded never lies at a pruned place, so pruned content does not decide where a change is
      recorded, except between two arrays, which are compared whole. */
  lemma SamePlaces(b: Json, a: Json, c: Json, d: Json, keys: seq<string>)
    requires AgreeOutside("", b, c) && AgreeOutside("", a, d)
    requires !(GetAt(b, keys).Arr? && GetAt(a, keys).Arr?)
    ensures RecordedAt(b, a, keys) ==> RecordedAt(c, d, keys)
  {
    if RecordedAt(b, a, keys) {
      RecordedMeaning(b, a, keys);
      AgreeDown("", b, a, c, d, keys);
      AgreeKind(Extend("", keys), GetAt(b, keys), GetAt(c, keys));
      AgreeKind(Extend("", keys), GetAt(a, keys), GetAt(d, keys));
      RecordedMeaning(c, d, keys);
    }
  }

  // ----- what the record gives away -----

  /** A change here would be recorded whole: not map against map, nor scalar against scalar. */
  predicate Whole(x: Json, y: Json) {
    !(MapOrNull(x) && MapOrNull(y)) && !(Scalar(x) && Scalar(y))
  }

  /** The record cannot tell the two pairs apart here: no change in either, or the same one. */
  predicate Untold(x: Json, y: Json, z: Json, w: Json) {
    (x == y && z == w) || (x == z && y == w)
  }

  ghost predicate UntoldWholes(b: Json, a: Json, c: Json, d: Json) {
    forall keys :: Reached("", b, a, keys) && Whole(GetAt(b, keys), GetAt(a, keys)) ==>
      Untold(GetAt(b, keys), GetAt(a, keys), GetAt(c, keys), GetAt(d, keys))
  }

  ghost predicate SameRecords(b: Json, a: Json, c: Json, d: Json) {
    forall e :: e in Edits("", b, a) <==> e in Edits("", c, d)
  }

  lemma EditCarriesOver(b: Json, a: Json, c: Json, d: Json, e: Edit)
    requires AgreeOutside("", b, c) && AgreeOutside("", a, d)
    requires UntoldWholes(b, a, c, d) && e in Edits("", b, a)
    ensures e in Edits("", c, d)
  {
    EditMeaning(b, a, e);
    AgreeDown("", b, a, c, d, e.keys);
    AgreeKind(Extend("", e.keys), e.before, GetAt(c, e.keys));
    AgreeKind(Extend("", e.keys), e.after, GetAt(d, e.keys));
    assert Whole(e.before, e.after) ==> Untold(e.before, e.after, GetAt(c, e.keys), GetAt(d, e.keys));
    EditMeaning(c, d, e);
  }

  lemma UntoldSwap(b: Json, a: Json, c: Json, d: Json)
    requires AgreeOutside("", b, c) && AgreeOutside("", a, d) && UntoldWholes(b, a, c, d)
    ensures UntoldWholes(c, d, b, a)
  {
    forall keys | Reached("", c, d, keys) && Whole(GetAt(c, keys), GetAt(d, keys))
      ensures Untold(GetAt(c, keys), GetAt(d, keys), GetAt(b, keys), GetAt(a, keys))
    {
      AgreeDown("", c, d, b, a, keys);
      AgreeKind(Extend("", keys), GetAt(b, keys), GetAt(c, keys));
      AgreeKind(Extend("", keys), GetAt(a, keys), GetAt(d, keys));
      assert Whole(GetAt(b, keys), GetAt(a, keys));
    }
  }

  lemma RecordsTell(b: Json, a: Json, c: Json, d: Json, keys: seq<string>)
    requires AgreeOutside("", b, c) && AgreeOutside("", a, d) && SameRecords(b, a, c, d)
    requires Reached("", b, a, keys) && Whole(GetAt(b, keys), GetAt(a, keys))
    ensures Untold(GetAt(b, keys), GetAt(a, keys), GetAt(c, keys), GetAt(d, keys))
  {
    var e, f := Edit(keys, GetAt(b, keys), GetAt(a, keys)), Edit(keys, GetAt(c, keys), GetAt(d, keys));
    AgreeDown("", b, a, c, d, keys);
    AgreeKind(Extend("", keys), e.before, f.before);
    AgreeKind(Extend("", keys), e.after, f.after);
    EditMeaning(b, a, e);
    EditMeaning(c, d, e);
    EditMeaning(b, a, f);
    EditMeaning(c, d, f);
  }

  /** Snapshots that agree outside pruned places have the same record exactly when that holds of every place
      the walk reaches with a map against a scalar, or an array, on either side. */
  lemma SameRecordsIff(b: Json, a: Json, c: Json, d: Json)
    requires AgreeOutside("", b, c) && AgreeOutside("", a, d)
    ensures SameRecords(b, a, c, d) <==> UntoldWholes(b, a, c, d)
  {
    if UntoldWholes(b, a, c, d) {
      UntoldSwap(b, a, c, d);
      forall e
        ensures e in Edits("", b, a) <==> e in Edits("", c, d)
      {
        if e in Edits("", b, a) { EditCarriesOver(b, a, c, d, e); }
        if e in Edits("", c, d) { EditCarriesOver(c, d, b, a, e); }
      }
    }
    if SameRecords(b, a, c, d) {
      forall keys | Reached("", b, a, keys) && Whole(GetAt(b, keys), GetAt(a, keys))
        ensures Untold(GetAt(b, keys), GetAt(a, keys), GetAt(c, keys), GetAt(d, keys))
      {
        RecordsTell(b, a, c, d, keys);
      }
    }
  }

  // ----- inputs on which pruned content is recorded -----

  function Holding(k: string, v: Json): Json {
    Obj(map[k := v])
  }

  function Secret(s: string): Json {
    Obj(map["password" := Str(s)])
  }

  lemma SecretIsPruned(k: string, s: string)
    requires k == "q"
    ensures !SkipAuditPath("") && !SkipAuditPath(k)
    ensures Public(k, Secret(s)) == Null
  {
    AuditWide.FieldKept(k);
    PathSecret(Child(k, "password"));
    var m := map["password" := Str(s)];
    assert Secret(s) == Obj(m);
  }

  lemma PathSecret(path: string)
    requires path == "q.password"
    ensures SkipAuditPath(path)
  {
    var tail, k := path[1..], path[2..];
    assert tail == ".password" && k == "password" && tail[1..] == k;
    assert path[1] == '.' && tail[0] == '.' && '.' !in k;
    assert LastKey(k) == k && LastKey(tail) == LastKey(k) && LastKey(path) == LastKey(tail);
    assert Lower(k) == k;
  }

  /** {"q": 1} becomes {"q": {"password": s}}: the record holds the whole map. */
  lemma SecretMapRecorded(k: string, x: real, s: string)
    requires k == "q"
    ensures Edit([k], Num(x), Secret(s)) in Edits("", Holding(k, Num(x)), Holding(k, Secret(s)))
  {
    var before, after := Holding(k, Num(x)), Holding(k, Secret(s));
    SecretIsPruned(k, s);
    assert Get(before, k) == Num(x) && Get(after, k) == Secret(s);
    assert GetAt(before, [k]) == Num(x) && GetAt(after, [k]) == Secret(s);
    assert [k][1..] == [] && Reached(k, Num(x), Secret(s), []);
    assert Reached("", before, after, [k]);
    RecordedMeaning(before, after, [k]);
  }

  /** {"q": [{"password": s}]} becomes {"q": [{"password": t}]}: nothing public changed, and both are
      recorded. */
  lemma SecretArrayRecorded(k: string, s: string, t: string)
    requires k == "q" && s != t
    ensures var x, y := Arr([Secret(s)]), Arr([Secret(t)]);
      && AgreeOutside("", Holding(k, x), Holding(k, y))
      && Edit([k], x, y) in Edits("", Holding(k, x), Holding(k, y))
  {
    var x, y := Arr([Secret(s)]), Arr([Secret(t)]);
    var before, after := Holding(k, x), Holding(k, y);
    SecretIsPruned(k, s);
    SecretIsPruned(k, t);
    assert Public(k, x) == Arr([Null]) && Public(k, y) == Arr([Null]);
    assert Child("", k) == k;
    assert Secret(s) != Secret(t) by { assert Secret(s).fields["password"] != Secret(t).fields["password"]; }
    assert x.items[0] != y.items[0];
    assert GetAt(before, [k]) == x && GetAt(after, [k]) == y;
    assert [k][1..] == [] && Reached(k, x, y, []);
    assert Reached("", before, after, [k]);
    RecordedMeaning(before, after, [k]);
    PublicUnder(k, x, y);
  }

  lemma PublicShape(path: string, v: Json)
    requires MapOrNull(v)
    ensures var e := Public(path, v);
      e.Null? || (e.Obj? && e.fields != map[] && forall k :: k in e.fields ==> e.fields[k] != Null)
  {
  }

  lemma PublicUnder(k: string, x: Json, y: Json)
    requires k == "q" && Public(k, x) == Public(k, y)
    ensures AgreeOutside("", Holding(k, x), Holding(k, y))
  {
    var v, w := Holding(k, x), Holding(k, y);
    forall j
      ensures Get(Public("", v), j) == Get(Public("", w), j)
    {
      PublicGet("", v, j);
      PublicGet("", w, j);
      assert j == k || (Get(v, j) == Null && Get(w, j) == Null);
    }
    PublicShape("", v);
    PublicShape("", w);
    SameEntries(Public("", v), Public("", w));
  }
}
