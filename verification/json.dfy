/** Decoded JSON as Go's `interface{}` trees. */
module JsonValue {

  datatype Json =
    | Null
    | Bool(b: bool)
    | Num(n: real)
    | Str(s: string)
    | Arr(items: seq<Json>)
    | Obj(fields: map<string, Json>)

  /** `m[k]` on a Go map, where an absent key reads as nil; nil itself has no keys. */
  function Get(v: Json, k: string): Json {
    if v.Obj? && k in v.fields then v.fields[k] else Null
  }

  predicate MapOrNull(v: Json) {
    v.Obj? || v.Null?
  }

  function KeysOf(v: Json): set<string> {
    if v.Obj? then v.fields.Keys else {}
  }

  /** Nesting depth of maps; the measure every walk over a pair of trees goes down on. */
  ghost function Height(v: Json): nat {
    match v
    case Obj(m) => 1 + MaxOf(map k | k in m :: Height(m[k]))
    case _ => 0
  }

  ghost function MaxOf(m: map<string, nat>): (r: nat)
    ensures forall k :: k in m ==> m[k] <= r
    ensures m != map[] ==> exists k :: k in m && m[k] == r
  {
    if m == map[] then 0
    else
      var x :| x in m;
      var r := MaxOf(m - {x});
      assert forall y :: y in m ==> y == x || y in m - {x};
      if m[x] > r then m[x] else r
  }

  lemma HeightGet(v: Json, k: string)
    ensures Height(Get(v, k)) <= Height(v)
    ensures v.Obj? ==> Height(Get(v, k)) < Height(v)
  {
    if v.Obj? && k in v.fields {
      var m := v.fields;
      var hs := map j | j in m :: Height(m[j]);
      assert Height(v) == 1 + MaxOf(hs);
      assert hs[k] <= MaxOf(hs);
    }
  }
}
