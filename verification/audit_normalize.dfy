/** Normalisation of a decoded snapshot (audit_compress.go, lines 168-206). Go iterates a map in an
    arbitrary order, so the result is a relation; when it is a function, and what it leaves alone,
    are the results of this module. */
module AuditNormalize {
  import opened JsonValue

  // `sprint` stands for fmt.Sprint on a decoded value.

  /** Keys copied under their own name. */
  predicate Plain(m: map<string, Json>, t: string) {
    t in m && t != "context" && t != "logs" && t != "_" && t != "_id"
  }

  /** "_id", which is printed into "id". */
  predicate Printed(m: map<string, Json>, t: string) {
    t == "id" && "_id" in m
  }

  /** Keys lifted out of the "_" map; its "meta" only when that is a map itself. */
  predicate Lifted(m: map<string, Json>, t: string) {
    "_" in m && m["_"].Obj? && t in m["_"].fields && t != "context" && (t == "meta" ==> m["_"].fields[t].Obj?)
  }

  predicate Written(m: map<string, Json>, t: string) {
    Plain(m, t) || Printed(m, t) || Lifted(m, t)
  }

  /** `r` is a result `normalizeAuditValue(v)` may return: every key some entry writes is present,
      and holds what one of the entries that write it puts there. */
  ghost predicate Normalizes(v: Json, r: Json, sprint: Json -> string)
    decreases v
  {
    match v
    case Obj(m) =>
      && r.Obj?
      && (forall t :: t in r.fields <==> Written(m, t))
      && (forall t :: t in r.fields ==>
            || (Plain(m, t) && Normalizes(m[t], r.fields[t], sprint))
            || (Printed(m, t) && r.fields[t] == Str(sprint(m["_id"])))
            || (Lifted(m, t) && Normalizes(m["_"].fields[t], r.fields[t], sprint)))
    case Arr(xs) =>
      && r.Arr? && |r.items| == |xs|
      && forall i :: 0 <= i < |xs| ==> Normalizes(xs[i], r.items[i], sprint)
    case _ => r == v
  }

  /** `x` is something an entry of `m` may write to `t`. */
  ghost predicate Justified(m: map<string, Json>, t: string, x: Json, sprint: Json -> string) {
    || (Plain(m, t) && Normalizes(m[t], x, sprint))
    || (Printed(m, t) && x == Str(sprint(m["_id"])))
    || (Lifted(m, t) && Normalizes(m["_"].fields[t], x, sprint))
  }

  /** One result in particular: a key's own entry wins over a printed one, that over a lifted one. */
  function Normalize(v: Json, sprint: Json -> string): Json
    decreases v
  {
    match v
    case Obj(m) => Obj(map t | t in Targets(m) && Written(m, t) ::
      if Plain(m, t) then Normalize(m[t], sprint)
      else if Printed(m, t) then Str(sprint(m["_id"]))
      else Normalize(m["_"].fields[t], sprint))
    case Arr(xs) => Arr(seq(|xs|, i requires 0 <= i < |xs| => Normalize(xs[i], sprint)))
    case _ => v
  }

  function Targets(m: map<string, Json>): set<string> {
    m.Keys + {"id"} + (if "_" in m && m["_"].Obj? then m["_"].fields.Keys else {})
  }

  lemma {:induction false} NormalizeIsResult(v: Json, sprint: Json -> string)
    ensures Normalizes(v, Normalize(v, sprint), sprint)
    decreases v
  {
    match v
    case Obj(m) =>
      forall t | Plain(m, t)
        ensures Normalizes(m[t], Normalize(m[t], sprint), sprint)
      {
        NormalizeIsResult(m[t], sprint);
      }
      forall t | Lifted(m, t)
        ensures Normalizes(m["_"].fields[t], Normalize(m["_"].fields[t], sprint), sprint)
      {
        NormalizeIsResult(m["_"].fields[t], sprint);
      }
    case Arr(xs) =>
      forall i | 0 <= i < |xs|
        ensures Normalizes(xs[i], Normalize(xs[i], sprint), sprint)
      {
        NormalizeIsResult(xs[i], sprint);
      }
    case _ =>
  }

  // ----- when iteration order cannot be seen -----

  /** All entries that write the same key write the same thing. */
  predicate Agrees(v: Json, sprint: Json -> string)
    decreases v
  {
    match v
    case Obj(m) =>
      && (forall t | t in Targets(m) && Plain(m, t) :: Agrees(m[t], sprint))
      && (forall t | t in Targets(m) && Lifted(m, t) :: Agrees(m["_"].fields[t], sprint))
      && (forall t | t in Targets(m) && Printed(m, t) && Plain(m, t) ::
            Normalize(m[t], sprint) == Str(sprint(m["_id"])))
      && (forall t | t in Targets(m) && Lifted(m, t) && Plain(m, t) ::
            Normalize(m["_"].fields[t], sprint) == Normalize(m[t], sprint))
      && (forall t | t in Targets(m) && Lifted(m, t) && Printed(m, t) ::
            Normalize(m["_"].fields[t], sprint) == Str(sprint(m["_id"])))
    case Arr(xs) => forall i | 0 <= i < |xs| :: Agrees(xs[i], sprint)
    case _ => true
  }

  lemma {:induction false} AgreeingResult(v: Json, r: Json, sprint: Json -> string)
    requires Agrees(v, sprint) && Normalizes(v, r, sprint)
    ensures r == Normalize(v, sprint)
    decreases v, 1
  {
    match v
    case Obj(m) =>
      var n := Normalize(v, sprint);
      forall t | t in r.fields
        ensures t in n.fields && r.fields[t] == n.fields[t]
      {
        AgreeingKey(m, t, r.fields[t], sprint);
      }
      assert n.fields == r.fields;
    case Arr(xs) =>
      forall i | 0 <= i < |xs|
        ensures r.items[i] == Normalize(xs[i], sprint)
      {
        AgreeingResult(xs[i], r.items[i], sprint);
      }
    case _ =>
  }

  lemma {:induction false} AgreeingKey(m: map<string, Json>, t: string, x: Json, sprint: Json -> string)
    requires Agrees(Obj(m), sprint) && Justified(m, t, x, sprint)
    ensures var n := Normalize(Obj(m), sprint).fields; t in n && x == n[t]
    decreases Obj(m), 0
  {
    assert t in Targets(m);
    if Plain(m, t) && Normalizes(m[t], x, sprint) {
      AgreeingResult(m[t], x, sprint);
    } else if !(Printed(m, t) && x == Str(sprint(m["_id"]))) {
      AgreeingResult(m["_"].fields[t], x, sprint);
    }
  }

  /** Putting what some entry writes to `t` in place of what `Normalize` holds there. */
  lemma WriteKey(m: map<string, Json>, t: string, x: Json, sprint: Json -> string)
    requires Justified(m, t, x, sprint)
    ensures Normalizes(Obj(m), Obj(Normalize(Obj(m), sprint).fields[t := x]), sprint)
  {
    NormalizeIsResult(Obj(m), sprint);
  }

  /** Another thing an entry may write to `t` makes another result. */
  lemma RewriteKey(m: map<string, Json>, t: string, x: Json, sprint: Json -> string) returns (r: Json)
    requires t in Normalize(Obj(m), sprint).fields && Normalize(Obj(m), sprint).fields[t] != x
    requires Justified(m, t, x, sprint)
    ensures Normalizes(Obj(m), r, sprint) && r != Normalize(Obj(m), sprint)
  {
    WriteKey(m, t, x, sprint);
    r := Obj(Normalize(Obj(m), sprint).fields[t := x]);
    assert r.fields[t] == x;
  }

  /** Where entries disagree, some iteration order gives another result. */
  lemma {:induction false} DisagreeingResult(v: Json, sprint: Json -> string) returns (r: Json)
    requires !Agrees(v, sprint)
    ensures Normalizes(v, r, sprint) && r != Normalize(v, sprint)
    decreases v
  {
    match v
    case Obj(m) => r := DisagreeingKey(m, sprint);
    case Arr(xs) =>
      NormalizeIsResult(v, sprint);
      var n := Normalize(v, sprint);
      var i :| 0 <= i < |xs| && !Agrees(xs[i], sprint);
      var x := DisagreeingResult(xs[i], sprint);
      r := Arr(n.items[i := x]);
      assert r.items[i] != n.items[i];
  }

  lemma {:induction false} DisagreeingKey(m: map<string, Json>, sprint: Json -> string) returns (r: Json)
    requires !Agrees(Obj(m), sprint)
    ensures Normalizes(Obj(m), r, sprint) && r != Normalize(Obj(m), sprint)
    decreases Obj(m), 0
  {
    var n := Normalize(Obj(m), sprint).fields;
    if t :| t in Targets(m) && Plain(m, t) && !Agrees(m[t], sprint) {
      var x := DisagreeingResult(m[t], sprint);
      r := RewriteKey(m, t, x, sprint);
    } else if t :| t in Targets(m) && Lifted(m, t) && Normalize(m["_"].fields[t], sprint) != n[t] {
      NormalizeIsResult(m["_"].fields[t], sprint);
      r := RewriteKey(m, t, Normalize(m["_"].fields[t], sprint), sprint);
    } else if t :| t in Targets(m) && Lifted(m, t) && !Agrees(m["_"].fields[t], sprint) {
      var x := DisagreeingResult(m["_"].fields[t], sprint);
      r := RewriteKey(m, t, x, sprint);
    } else {
      assert "id" in Targets(m) && Printed(m, "id") && n["id"] != Str(sprint(m["_id"]));
      r := RewriteKey(m, "id", Str(sprint(m["_id"])), sprint);
    }
  }

  /** There is a single possible result exactly when no two entries write different things to one key. */
  lemma OrderIndependentIff(v: Json, sprint: Json -> string)
    ensures Agrees(v, sprint) <==> (forall r :: Normalizes(v, r, sprint) ==> r == Normalize(v, sprint))
  {
    if Agrees(v, sprint) {
      forall r | Normalizes(v, r, sprint)
        ensures r == Normalize(v, sprint)
      {
        AgreeingResult(v, r, sprint);
      }
    } else {
      var r := DisagreeingResult(v, sprint);
      assert Normalizes(v, r, sprint) && r != Normalize(v, sprint);
    }
  }

  // ----- what is kept, lifted and printed -----

  predicate OwnKey(m: map<string, Json>, t: string) {
    t in m && t != "context" && t != "logs" && t != "_" && t != "_id"
  }

  predicate NestedKey(m: map<string, Json>, t: string) {
    "_" in m && m["_"].Obj? && t in m["_"].fields && t != "context" && (t != "meta" || m["_"].fields["meta"].Obj?)
  }

  /** A result has the map's own keys but for the four special ones, those of its "_" map but for "context" and
      a "meta" that is no map, and "id" when there is an "_id". */
  lemma NormalizedKeys(m: map<string, Json>, r: map<string, Json>, sprint: Json -> string)
    requires Normalizes(Obj(m), Obj(r), sprint)
    ensures forall t :: t in r <==> OwnKey(m, t) || NestedKey(m, t) || (t == "id" && "_id" in m)
  {
  }

  /** A key with a single source holds the normal form of that source, or the print of "_id". */
  lemma NormalizedValue(m: map<string, Json>, r: map<string, Json>, t: string, sprint: Json -> string)
    requires Normalizes(Obj(m), Obj(r), sprint) && t in r
    ensures OwnKey(m, t) && !NestedKey(m, t) && !(t == "id" && "_id" in m) ==> Normalizes(m[t], r[t], sprint)
    ensures NestedKey(m, t) && !OwnKey(m, t) && !(t == "id" && "_id" in m) ==>
      Normalizes(m["_"].fields[t], r[t], sprint)
    ensures t == "id" && "_id" in m && !OwnKey(m, t) && !NestedKey(m, t) ==> r[t] == Str(sprint(m["_id"]))
  {
  }

  // ----- what normalisation leaves alone -----

  predicate SpecialKey(k: string) {
    k == "context" || k == "logs" || k == "_" || k == "_id"
  }

  /** No map anywhere inside `v` has one of the keys normalisation treats specially. */
  predicate Normal(v: Json)
    decreases v
  {
    match v
    case Obj(m) => forall k | k in m :: !SpecialKey(k) && Normal(m[k])
    case Arr(xs) => forall i | 0 <= i < |xs| :: Normal(xs[i])
    case _ => true
  }

  /** No "_" map holds "_", "_id" or "logs" itself. */
  predicate Tame(v: Json)
    decreases v
  {
    match v
    case Obj(m) =>
      && (forall k | k in m && Plain(m, k) :: Tame(m[k]))
      && ("_" in m && m["_"].Obj? ==>
            forall k | k in m["_"].fields && Lifted(m, k) :: !SpecialKey(k) && Tame(m["_"].fields[k]))
    case Arr(xs) => forall i | 0 <= i < |xs| :: Tame(xs[i])
    case _ => true
  }

  lemma {:induction false} TameBecomesNormal(v: Json, r: Json, sprint: Json -> string)
    requires Tame(v) && Normalizes(v, r, sprint)
    ensures Normal(r)
    decreases v
  {
    match v
    case Obj(m) =>
      forall t | t in r.fields
        ensures !SpecialKey(t) && Normal(r.fields[t])
      {
        if Plain(m, t) && Normalizes(m[t], r.fields[t], sprint) {
          TameBecomesNormal(m[t], r.fields[t], sprint);
        } else if !(Printed(m, t) && r.fields[t] == Str(sprint(m["_id"]))) {
          TameBecomesNormal(m["_"].fields[t], r.fields[t], sprint);
        }
      }
    case Arr(xs) =>
      forall i | 0 <= i < |xs|
        ensures Normal(r.items[i])
      {
        TameBecomesNormal(xs[i], r.items[i], sprint);
      }
    case _ =>
  }

  lemma {:induction false} NormalIsFixed(v: Json, r: Json, sprint: Json -> string)
    requires Normal(v) && Normalizes(v, r, sprint)
    ensures r == v
    decreases v
  {
    match v
    case Obj(m) =>
      forall t | t in m
        ensures t in r.fields && r.fields[t] == m[t]
      {
        assert Written(m, t);
        NormalIsFixed(m[t], r.fields[t], sprint);
      }
      assert r.fields == m;
    case Arr(xs) =>
      forall i | 0 <= i < |xs|
        ensures r.items[i] == xs[i]
      {
        NormalIsFixed(xs[i], r.items[i], sprint);
      }
    case _ =>
  }

  lemma {:induction false} NormalizeNotHigher(v: Json, sprint: Json -> string)
    ensures Height(Normalize(v, sprint)) <= Height(v)
    decreases v
  {
    if v.Obj? {
      var m, n := v.fields, Normalize(v, sprint);
      var hs := map k | k in n.fields :: Height(n.fields[k]);
      assert Height(n) == 1 + MaxOf(hs);
      if n.fields != map[] {
        assert hs != map[] by { var k :| k in n.fields; assert k in hs; }
        var t :| t in hs && hs[t] == MaxOf(hs);
        HeightGet(v, t);
        HeightGet(v, "_");
        if Plain(m, t) {
          NormalizeNotHigher(m[t], sprint);
        } else if !Printed(m, t) {
          NormalizeNotHigher(m["_"].fields[t], sprint);
          HeightGet(m["_"], t);
        }
      }
    }
  }

  lemma {:induction false} FixedIsNormal(v: Json, sprint: Json -> string)
    requires Normalize(v, sprint) == v
    ensures Normal(v)
    decreases v
  {
    match v
    case Obj(m) =>
      if "_" in m {
        // "_" could only come back by being lifted from itself, which is lower
        assert Lifted(m, "_");
        assert m["_"] == Normalize(m["_"].fields["_"], sprint);
        NormalizeNotHigher(m["_"].fields["_"], sprint);
        HeightGet(m["_"], "_");
        assert false;
      }
      forall k | k in m
        ensures !SpecialKey(k) && Normal(m[k])
      {
        assert Written(m, k);
        assert !SpecialKey(k);
        assert "_id" !in m by { assert !Written(m, "_id"); }
        FixedIsNormal(m[k], sprint);
      }
    case Arr(xs) =>
      forall i | 0 <= i < |xs|
        ensures Normal(xs[i])
      {
        assert Normalize(v, sprint).items[i] == Normalize(xs[i], sprint);
        FixedIsNormal(xs[i], sprint);
      }
    case _ =>
  }

  /** The trees normalisation always returns unchanged are exactly those without special keys. */
  lemma FixedPointsIff(v: Json, sprint: Json -> string)
    ensures Normal(v) <==> (forall r :: Normalizes(v, r, sprint) ==> r == v)
  {
    var n := Normalize(v, sprint);
    NormalizeIsResult(v, sprint);
    if Normal(v) {
      forall r | Normalizes(v, r, sprint)
        ensures r == v
      {
        NormalIsFixed(v, r, sprint);
      }
    } else {
      if n == v { FixedIsNormal(v, sprint); }
      assert Normalizes(v, n, sprint) && n != v;
    }
  }

  /** Where some "_" map holds a special key, some result keeps that key. */
  lemma {:induction false} UntameResult(v: Json, sprint: Json -> string) returns (r: Json)
    requires !Tame(v)
    ensures Normalizes(v, r, sprint) && !Normal(r)
    decreases v
  {
    match v
    case Obj(m) => r := UntameKey(m, sprint);
    case Arr(xs) =>
      NormalizeIsResult(v, sprint);
      var i :| 0 <= i < |xs| && !Tame(xs[i]);
      var x := UntameResult(xs[i], sprint);
      r := Arr(Normalize(v, sprint).items[i := x]);
      assert r.items[i] == x;
  }

  lemma WriteAbnormal(m: map<string, Json>, t: string, x: Json, sprint: Json -> string) returns (r: Json)
    requires Justified(m, t, x, sprint) && !Normal(x)
    ensures Normalizes(Obj(m), r, sprint) && !Normal(r)
  {
    WriteKey(m, t, x, sprint);
    r := Obj(Normalize(Obj(m), sprint).fields[t := x]);
    assert t in r.fields && r.fields[t] == x;
  }

  lemma {:induction false} UntameKey(m: map<string, Json>, sprint: Json -> string) returns (r: Json)
    requires !Tame(Obj(m))
    ensures Normalizes(Obj(m), r, sprint) && !Normal(r)
    decreases Obj(m), 0
  {
    if t :| t in m && Plain(m, t) && !Tame(m[t]) {
      var x := UntameResult(m[t], sprint);
      r := WriteAbnormal(m, t, x, sprint);
    } else {
      var t :| t in m["_"].fields && Lifted(m, t) && (SpecialKey(t) || !Tame(m["_"].fields[t]));
      if SpecialKey(t) {
        NormalizeIsResult(Obj(m), sprint);
        r := Normalize(Obj(m), sprint);
        assert t in r.fields;
      } else {
        var x := UntameResult(m["_"].fields[t], sprint);
        r := WriteAbnormal(m, t, x, sprint);
      }
    }
  }

  /** Normalising a second time changes nothing, whatever the iteration orders were, exactly when no
      "_" map holds "_", "_id" or "logs" itself. */
  lemma NormalizeTwiceIff(v: Json, sprint: Json -> string)
    ensures Tame(v) <==>
      (forall r, q :: Normalizes(v, r, sprint) && Normalizes(r, q, sprint) ==> q == r)
  {
    if Tame(v) {
      forall r, q | Normalizes(v, r, sprint) && Normalizes(r, q, sprint)
        ensures q == r
      {
        TameBecomesNormal(v, r, sprint);
        NormalIsFixed(r, q, sprint);
      }
    } else {
      var r := UntameResult(v, sprint);
      FixedPointsIff(r, sprint);
      var q :| Normalizes(r, q, sprint) && q != r;
    }
  }

  // ----- inputs on which the conditions fail -----

  /** {"id": x, "_id": y}: the result holds x or the print of y, as the map is iterated. */
  lemma TwoIds(x: real, y: real, sprint: Json -> string)
    ensures var v := Obj(map["id" := Num(x), "_id" := Num(y)]);
      && Normalizes(v, Obj(map["id" := Num(x)]), sprint)
      && Normalizes(v, Obj(map["id" := Str(sprint(Num(y)))]), sprint)
      && !Agrees(v, sprint)
  {
    var m := map["id" := Num(x), "_id" := Num(y)];
    forall t
      ensures Written(m, t) <==> t == "id"
    {
    }
    assert "id" in Targets(m) && Printed(m, "id") && Plain(m, "id");
  }

  /** {"_": {"_id": x}}: the first pass lifts "_id" out, the second prints it. */
  lemma TwoPasses(x: real, sprint: Json -> string)
    ensures var v := Obj(map["_" := Obj(map["_id" := Num(x)])]);
      && Normalizes(v, Obj(map["_id" := Num(x)]), sprint)
      && Normalizes(Obj(map["_id" := Num(x)]), Obj(map["id" := Str(sprint(Num(x)))]), sprint)
      && !Tame(v)
  {
    var inner := map["_id" := Num(x)];
    var m := map["_" := Obj(inner)];
    assert Lifted(m, "_id");
    forall t
      ensures Written(m, t) <==> t == "_id"
      ensures Written(inner, t) <==> t == "id"
    {
    }
  }

  // ----- the imperative walk -----

  /** Keys written by the entries of `m` visited so far. */
  predicate WrittenBy(m: map<string, Json>, done: set<string>, t: string) {
    || (Plain(m, t) && t in done)
    || (Printed(m, t) && "_id" in done)
    || (Lifted(m, t) && "_" in done)
  }

  method NormalizeAuditValue(v: Json, sprint: Json -> string) returns (r: Json)
    ensures Normalizes(v, r, sprint)
    decreases v, 1
  {
    match v
    case Obj(m) =>
      var out: map<string, Json> := map[];
      var todo := m.Keys;
      while todo != {}
        invariant todo <= m.Keys
        invariant forall t :: t in out <==> WrittenBy(m, m.Keys - todo, t)
        invariant forall t :: t in out ==> Justified(m, t, out[t], sprint)
      {
        var k :| k in todo;
        todo := todo - {k};
        if k == "context" || k == "logs" {
          continue;
        }
        if k == "_" {
          if m[k].Obj? {
            out := LiftNested(m, out, sprint);
          }
          continue;
        }
        if k == "_id" {
          out := out["id" := Str(sprint(m[k]))];
          continue;
        }
        var child := NormalizeAuditValue(m[k], sprint);
        out := out[k := child];
      }
      assert m.Keys - todo == m.Keys;
      r := Obj(out);
    case Arr(xs) =>
      var out: seq<Json> := [];
      var i := 0;
      while i < |xs|
        invariant 0 <= i == |out| <= |xs|
        invariant forall j :: 0 <= j < i ==> Normalizes(xs[j], out[j], sprint)
      {
        var item := NormalizeAuditValue(xs[i], sprint);
        out := out + [item];
        i := i + 1;
      }
      r := Arr(out);
    case _ =>
      r := v;
  }

  /** The entries of the "_" map, lifted one level up into `out`. */
  method LiftNested(m: map<string, Json>, out0: map<string, Json>, sprint: Json -> string)
    returns (out: map<string, Json>)
    requires "_" in m && m["_"].Obj?
    ensures forall t :: t in out <==> t in out0 || Lifted(m, t)
    ensures forall t :: Lifted(m, t) ==> Normalizes(m["_"].fields[t], out[t], sprint)
    ensures forall t :: t in out0 && !Lifted(m, t) ==> out[t] == out0[t]
    decreases Obj(m), 0
  {
    var nested := m["_"].fields;
    out := out0;
    if "meta" in nested && nested["meta"].Obj? {
      var meta := NormalizeAuditValue(nested["meta"], sprint);
      out := out["meta" := meta];
    }
    var todo := nested.Keys;
    while todo != {}
      invariant todo <= nested.Keys
      invariant forall t :: t in out <==> t in out0 || (Lifted(m, t) && (t == "meta" || t !in todo))
      invariant forall t :: Lifted(m, t) && (t == "meta" || t !in todo) ==> Normalizes(nested[t], out[t], sprint)
      invariant forall t :: t in out0 && !Lifted(m, t) ==> out[t] == out0[t]
    {
      var k :| k in todo;
      todo := todo - {k};
      if k == "meta" || k == "context" {
        continue;
      }
      var child := NormalizeAuditValue(nested[k], sprint);
      out := out[k := child];
    }
  }
}
