/** Redaction of a decoded request body in place (oplog.go, lines 37-56 and 701-716). Decoded maps
    are objects on the heap; scalars and slices are values, as `redactValue` never writes to those. */
module Redact {
  import opened Text
  import opened JsonValue

  const SENSITIVE_BODY_KEYS: set<string> := {
    "password", "passwd", "old_password", "new_password", "oldpassword", "newpassword",
    "token", "access_token", "refresh_token", "secret", "session_key", "jwt",
    "otp", "otp_secret", "opt_secret", "sms_code", "authorization", "cookie"
  }

  predicate Sensitive(k: string) {
    Lower(k) in SENSITIVE_BODY_KEYS
  }

  // ----- the meaning of redaction on values -----

  const MASK := Str("***")

  function RedactJson(j: Json): Json
    decreases j
  {
    match j
    case Obj(m) => Obj(map k | k in m :: if Sensitive(k) then MASK else RedactJson(m[k]))
    case Arr(xs) => Arr(seq(|xs|, i requires 0 <= i < |xs| => RedactJson(xs[i])))
    case _ => j
  }

  datatype Step = Key(k: string) | Index(i: nat)

  /** The value a path leads to, if it leads anywhere. */
  function Look(j: Json, p: seq<Step>): Option<Json>
    decreases |p|
  {
    if p == [] then Some(j)
    else match p[0]
      case Key(k) => if j.Obj? && k in j.fields then Look(j.fields[k], p[1..]) else None
      case Index(i) => if j.Arr? && i < |j.items| then Look(j.items[i], p[1..]) else None
  }

  /** What one sees of a value without following any path into it. */
  datatype Face = Scalar(j: Json) | Length(n: nat) | Names(keys: set<string>)

  function FaceOf(j: Json): Face {
    match j
    case Obj(m) => Names(m.Keys)
    case Arr(xs) => Length(|xs|)
    case _ => Scalar(j)
  }

  function FaceAt(j: Json, p: seq<Step>): Option<Face> {
    match Look(j, p)
    case None => None
    case Some(x) => Some(FaceOf(x))
  }

  /** A path that does not go through the value of a sensitive key. */
  predicate Public(p: seq<Step>) {
    forall i | 0 <= i < |p| :: p[i].Key? ==> !Sensitive(p[i].k)
  }

  /** Two bodies agree everywhere outside the values of sensitive keys. */
  ghost predicate AgreeInPublic(a: Json, b: Json) {
    forall p :: Public(p) ==> FaceAt(a, p) == FaceAt(b, p)
  }

  lemma {:induction false} RedactKeepsPublic(j: Json, p: seq<Step>)
    requires Public(p)
    ensures FaceAt(RedactJson(j), p) == FaceAt(j, p)
    decreases |p|
  {
    if p == [] {
      if j.Obj? { assert RedactJson(j).fields.Keys == j.fields.Keys; }
    } else {
      assert Public(p[1..]);
      match p[0]
      case Key(k) =>
        assert !Sensitive(k);
        if j.Obj? && k in j.fields { RedactKeepsPublic(j.fields[k], p[1..]); }
      case Index(i) => if j.Arr? && i < |j.items| { RedactKeepsPublic(j.items[i], p[1..]); }
    }
  }

  lemma AgreeBelow(a: Json, b: Json, s: Step)
    requires AgreeInPublic(a, b) && Public([s])
    requires Look(a, [s]).Some? && Look(b, [s]).Some?
    ensures AgreeInPublic(Look(a, [s]).value, Look(b, [s]).value)
  {
    forall p | Public(p)
      ensures FaceAt(Look(a, [s]).value, p) == FaceAt(Look(b, [s]).value, p)
    {
      var q := [s] + p;
      assert q[1..] == p && q[0] == s;
      assert Public(q);
      assert FaceAt(a, q) == FaceAt(b, q);
    }
  }

  lemma {:induction false} AgreeingRedactSame(a: Json, b: Json)
    requires AgreeInPublic(a, b)
    ensures RedactJson(a) == RedactJson(b)
    decreases a
  {
    assert FaceAt(a, []) == FaceAt(b, []);
    match a
    case Obj(m) =>
      forall k | k in m && !Sensitive(k)
        ensures RedactJson(m[k]) == RedactJson(b.fields[k])
      {
        AgreeBelow(a, b, Key(k));
        AgreeingRedactSame(m[k], b.fields[k]);
      }
    case Arr(xs) =>
      forall i | 0 <= i < |xs|
        ensures RedactJson(xs[i]) == RedactJson(b.items[i])
      {
        AgreeBelow(a, b, Index(i));
        AgreeingRedactSame(xs[i], b.items[i]);
      }
    case _ =>
  }

  /** Non-interference: redaction hides the values of sensitive keys and nothing else. */
  lemma RedactNonInterference(a: Json, b: Json)
    ensures RedactJson(a) == RedactJson(b) <==> AgreeInPublic(a, b)
  {
    if AgreeInPublic(a, b) {
      AgreeingRedactSame(a, b);
    }
    if RedactJson(a) == RedactJson(b) {
      forall p | Public(p)
        ensures FaceAt(a, p) == FaceAt(b, p)
      {
        RedactKeepsPublic(a, p);
        RedactKeepsPublic(b, p);
      }
    }
  }

  /** Whatever a sensitive key holds after redaction, at any depth, is the mask. */
  lemma {:induction false} SensitiveIsMasked(j: Json, p: seq<Step>, k: string)
    requires Sensitive(k)
    ensures Look(RedactJson(j), p + [Key(k)]) in {None, Some(MASK)}
    decreases |p|
  {
    var q := p + [Key(k)];
    if p == [] {
      assert q[1..] == [];
    } else {
      assert q[1..] == p[1..] + [Key(k)];
      match p[0]
      case Key(l) =>
        if j.Obj? && l in j.fields {
          if Sensitive(l) { NothingInMask(q[1..]); } else { SensitiveIsMasked(j.fields[l], p[1..], k); }
        }
      case Index(i) => if j.Arr? && i < |j.items| { SensitiveIsMasked(j.items[i], p[1..], k); }
    }
  }

  /** The keys whose values are masked, in any letter case. */
  predicate Named(k: string) {
    var low := Lower(k);
    || low == "password" || low == "passwd" || low == "old_password" || low == "new_password"
    || low == "oldpassword" || low == "newpassword"
    || low == "token" || low == "access_token" || low == "refresh_token" || low == "secret"
    || low == "session_key" || low == "jwt" || low == "otp" || low == "otp_secret" || low == "opt_secret"
    || low == "sms_code" || low == "authorization" || low == "cookie"
  }

  lemma NamedIff(k: string)
    ensures Sensitive(k) <==> Named(k)
  {
  }

  /** However a key is spelled, its value is masked when its lower-case form is one of these names, wherever it
      is, and the value of any other key is redacted in its own right. */
  lemma NamedIsMasked(j: Json, p: seq<Step>, k: string)
    ensures Named(k) ==> Look(RedactJson(j), p + [Key(k)]) in {None, Some(MASK)}
    ensures j.Obj? && k in j.fields ==>
      && RedactJson(j).Obj? && k in RedactJson(j).fields
      && RedactJson(j).fields[k] == (if Named(k) then Str("***") else RedactJson(j.fields[k]))
  {
    NamedIff(k);
    if Named(k) { SensitiveIsMasked(j, p, k); }
  }

  /** Two spellings of one name are masked alike. */
  lemma SpellingIrrelevant(k: string, l: string)
    requires Lower(k) == Lower(l)
    ensures Sensitive(k) <==> Sensitive(l)
  {
    NamedIff(k);
    NamedIff(l);
  }

  lemma CapitalPassword(j: Json, k: string)
    requires k == "Password" && j.Obj? && k in j.fields
    ensures RedactJson(j).fields[k] == Str("***")
  {
    assert Lower(k) == "password";
    NamedIsMasked(j, [], k);
  }

  lemma NothingInMask(p: seq<Step>)
    requires p != []
    ensures Look(MASK, p) == None
  {
  }

  lemma {:induction false} RedactTwice(j: Json)
    ensures RedactJson(RedactJson(j)) == RedactJson(j)
    decreases j
  {
    match j
    case Obj(m) =>
      forall k | k in m
        ensures RedactJson(RedactJson(m[k])) == RedactJson(m[k])
      {
        RedactTwice(m[k]);
      }
      assert RedactJson(RedactJson(j)).fields == RedactJson(j).fields;
    case Arr(xs) =>
      forall i | 0 <= i < |xs|
        ensures RedactJson(RedactJson(xs[i])) == RedactJson(xs[i])
      {
        RedactTwice(xs[i]);
      }
    case _ =>
  }

  // ----- the in-place walk -----

  class MapNode {
    var fields: map<string, Value>
  }

  datatype Value =
    | Leaf(leaf: Json)
    | List(items: seq<Value>)
    | Dict(node: MapNode)

  /** The fields of some map objects at one moment. */
  type Snapshot = map<MapNode, map<string, Value>>

  ghost function Snap(region: set<MapNode>): Snapshot
    reads region
  {
    map n | n in region :: n.fields
  }

  /** In that snapshot `v` is the finite tree `j`. Maps may be shared, but not cyclic. */
  ghost predicate Denotes(h: Snapshot, v: Value, j: Json)
    decreases j
  {
    match v
    case Leaf(x) => j == x && !j.Arr? && !j.Obj?
    case List(vs) => j.Arr? && |vs| == |j.items| && forall i :: 0 <= i < |vs| ==> Denotes(h, vs[i], j.items[i])
    case Dict(n) =>
      && j.Obj? && n in h && h[n].Keys == j.fields.Keys
      && forall k :: k in j.fields ==> Denotes(h, h[n][k], j.fields[k])
  }

  /** The map objects the walk goes through: those not only reached through sensitive keys. */
  ghost function Visited(h: Snapshot, v: Value, j: Json): set<MapNode>
    requires Denotes(h, v, j)
    decreases j
  {
    match v
    case Leaf(_) => {}
    case List(vs) => set i, n | 0 <= i < |vs| && n in Visited(h, vs[i], j.items[i]) :: n
    case Dict(m) => {m} + set k, n | k in j.fields && !Sensitive(k) && n in Visited(h, h[m][k], j.fields[k]) :: n
  }

  /** Some of the sensitive entries are masked, everything else is as it was. */
  ghost predicate PartlyMasked(was: map<string, Value>, now: map<string, Value>) {
    now.Keys == was.Keys && forall k :: k in was ==> now[k] == was[k] || (Sensitive(k) && now[k] == Leaf(MASK))
  }

  ghost predicate FullyMasked(was: map<string, Value>, now: map<string, Value>) {
    now.Keys == was.Keys && forall k :: k in was ==> now[k] == if Sensitive(k) then Leaf(MASK) else was[k]
  }

  /** Where the walk has been, the snapshot shows the redacted tree. */
  lemma {:induction false} MaskedDenotes(h: Snapshot, g: Snapshot, v: Value, j: Json)
    requires Denotes(h, v, j)
    requires forall n :: n in Visited(h, v, j) ==> n in h && n in g && FullyMasked(h[n], g[n])
    ensures Denotes(g, v, RedactJson(j))
    decreases j
  {
    match v
    case Leaf(_) =>
    case List(vs) =>
      forall i | 0 <= i < |vs|
        ensures Denotes(g, vs[i], RedactJson(j.items[i]))
      {
        MaskedDenotes(h, g, vs[i], j.items[i]);
      }
    case Dict(n) =>
      forall k | k in j.fields && !Sensitive(k)
        ensures Denotes(g, h[n][k], RedactJson(j.fields[k]))
      {
        MaskedDenotes(h, g, h[n][k], j.fields[k]);
      }
  }

  /** Every map object of the region is between its two snapshots' masking: what was masked stays so. */
  ghost predicate Progress(g: Snapshot, region: set<MapNode>)
    reads region
  {
    g.Keys == region && forall n :: n in region ==> PartlyMasked(g[n], n.fields)
  }

  ghost predicate MaskedIn(h: Snapshot, nodes: set<MapNode>, now: Snapshot) {
    nodes <= now.Keys && nodes <= h.Keys && forall n :: n in nodes ==> FullyMasked(h[n], now[n])
  }

  lemma MaskedStays(h: Snapshot, nodes: set<MapNode>, g: Snapshot, now: Snapshot)
    requires MaskedIn(h, nodes, g) && g.Keys == now.Keys
    requires forall n :: n in g ==> PartlyMasked(g[n], now[n])
    ensures MaskedIn(h, nodes, now)
  {
  }

  /** The walk, started anywhere in a region that may already be partly masked; `h` is the region
      before the whole redaction began. */
  method RedactValue(v: Value, ghost j: Json, ghost h: Snapshot, ghost region: set<MapNode>)
    requires Denotes(h, v, j) && Progress(h, region)
    modifies region
    ensures Progress(h, region) && Progress(old(Snap(region)), region)
    ensures MaskedIn(h, Visited(h, v, j), Snap(region))
    ensures forall n :: n in region && n !in Visited(h, v, j) ==> n.fields == old(n.fields)
    decreases j, 2
  {
    match v
    case Leaf(_) =>
    case List(vs) => RedactItems(vs, j, h, region);
    case Dict(t) => RedactFields(t, j, h, region);
  }

  /** The first `i` elements are redacted all the way down. */
  ghost predicate ItemsDone(h: Snapshot, vs: seq<Value>, j: Json, i: nat, now: Snapshot)
    requires Denotes(h, List(vs), j)
  {
    forall l :: 0 <= l < i && l < |vs| ==> MaskedIn(h, Visited(h, vs[l], j.items[l]), now)
  }

  lemma ItemsStay(h: Snapshot, vs: seq<Value>, j: Json, i: nat, g: Snapshot, now: Snapshot)
    requires Denotes(h, List(vs), j) && i < |vs| && ItemsDone(h, vs, j, i, g)
    requires g.Keys == now.Keys && forall n :: n in g ==> PartlyMasked(g[n], now[n])
    requires MaskedIn(h, Visited(h, vs[i], j.items[i]), now)
    ensures ItemsDone(h, vs, j, i + 1, now)
  {
    forall l | 0 <= l < i
      ensures MaskedIn(h, Visited(h, vs[l], j.items[l]), now)
    {
      MaskedStays(h, Visited(h, vs[l], j.items[l]), g, now);
    }
  }

  lemma ItemsAllDone(h: Snapshot, vs: seq<Value>, j: Json, now: Snapshot)
    requires Denotes(h, List(vs), j) && ItemsDone(h, vs, j, |vs|, now)
    ensures MaskedIn(h, Visited(h, List(vs), j), now)
  {
    forall n | n in Visited(h, List(vs), j)
      ensures n in now && n in h && FullyMasked(h[n], now[n])
    {
      var l :| 0 <= l < |vs| && n in Visited(h, vs[l], j.items[l]);
      assert MaskedIn(h, Visited(h, vs[l], j.items[l]), now);
    }
  }

  method RedactItems(vs: seq<Value>, ghost j: Json, ghost h: Snapshot, ghost region: set<MapNode>)
    requires Denotes(h, List(vs), j) && Progress(h, region)
    modifies region
    ensures Progress(h, region) && Progress(old(Snap(region)), region)
    ensures MaskedIn(h, Visited(h, List(vs), j), Snap(region))
    ensures forall n :: n in region && n !in Visited(h, List(vs), j) ==> n.fields == old(n.fields)
    decreases j, 0
  {
    ghost var all := Visited(h, List(vs), j);
    var i := 0;
    while i < |vs|
      invariant 0 <= i <= |vs|
      invariant Progress(h, region) && Progress(old(Snap(region)), region)
      invariant ItemsDone(h, vs, j, i, Snap(region))
      invariant forall n :: n in region && n !in all ==> n.fields == old(n.fields)
    {
      ghost var g := Snap(region);
      RedactValue(vs[i], j.items[i], h, region);
      ItemsStay(h, vs, j, i, g, Snap(region));
      i := i + 1;
    }
    ItemsAllDone(h, vs, j, Snap(region));
  }

  method RedactFields(t: MapNode, ghost j: Json, ghost h: Snapshot, ghost region: set<MapNode>)
    requires Denotes(h, Dict(t), j) && Progress(h, region)
    modifies region
    ensures Progress(h, region) && Progress(old(Snap(region)), region)
    ensures MaskedIn(h, Visited(h, Dict(t), j), Snap(region))
    ensures forall n :: n in region && n !in Visited(h, Dict(t), j) ==> n.fields == old(n.fields)
    decreases j, 1
  {
    ghost var all := Visited(h, Dict(t), j);
    var todo := t.fields.Keys;
    while todo != {}
      invariant todo <= j.fields.Keys
      invariant Progress(h, region) && Progress(old(Snap(region)), region)
      invariant forall k :: k in j.fields && k !in todo ==> EntryDone(h, t, j, k, Snap(region))
      invariant forall n :: n in region && n !in all ==> n.fields == old(n.fields)
    {
      ghost var g := Snap(region);
      var k :| k in todo;
      todo := todo - {k};
      RedactEntry(t, k, j, h, region);
      forall l | l in j.fields && l !in todo && l != k
        ensures EntryDone(h, t, j, l, Snap(region))
      {
        EntryStays(h, t, j, l, g, Snap(region));
      }
    }
    EntriesDone(h, t, j, Snap(region));
  }

  /** Entry `k` of `t` is masked, or redacted all the way down. */
  ghost predicate EntryDone(h: Snapshot, t: MapNode, j: Json, k: string, now: Snapshot)
    requires Denotes(h, Dict(t), j) && k in j.fields
  {
    if Sensitive(k) then t in now && k in now[t] && now[t][k] == Leaf(MASK)
    else MaskedIn(h, Visited(h, h[t][k], j.fields[k]), now)
  }

  lemma EntryStays(h: Snapshot, t: MapNode, j: Json, k: string, g: Snapshot, now: Snapshot)
    requires Denotes(h, Dict(t), j) && k in j.fields && EntryDone(h, t, j, k, g)
    requires g.Keys == now.Keys && forall n :: n in g ==> PartlyMasked(g[n], now[n])
    ensures EntryDone(h, t, j, k, now)
  {
    if !Sensitive(k) {
      MaskedStays(h, Visited(h, h[t][k], j.fields[k]), g, now);
    }
  }

  lemma EntriesDone(h: Snapshot, t: MapNode, j: Json, now: Snapshot)
    requires Denotes(h, Dict(t), j) && t in now && PartlyMasked(h[t], now[t])
    requires forall k :: k in j.fields ==> EntryDone(h, t, j, k, now)
    ensures MaskedIn(h, Visited(h, Dict(t), j), now)
  {
    forall k | k in h[t]
      ensures now[t][k] == if Sensitive(k) then Leaf(MASK) else h[t][k]
    {
      assert EntryDone(h, t, j, k, now);
    }
    forall n | n in Visited(h, Dict(t), j)
      ensures n in now && n in h && FullyMasked(h[n], now[n])
    {
      if n != t {
        var k :| k in j.fields && !Sensitive(k) && n in Visited(h, h[t][k], j.fields[k]);
        assert EntryDone(h, t, j, k, now);
      }
    }
  }

  lemma VisitedBelow(h: Snapshot, t: MapNode, j: Json, k: string)
    requires Denotes(h, Dict(t), j) && k in j.fields && !Sensitive(k)
    ensures Visited(h, h[t][k], j.fields[k]) <= Visited(h, Dict(t), j)
  {
  }

  /** One entry of the map: overwritten when its key is sensitive, walked into otherwise. */
  method RedactEntry(t: MapNode, k: string, ghost j: Json, ghost h: Snapshot, ghost region: set<MapNode>)
    requires Denotes(h, Dict(t), j) && k in j.fields && Progress(h, region)
    modifies region
    ensures Progress(h, region) && Progress(old(Snap(region)), region)
    ensures EntryDone(h, t, j, k, Snap(region))
    ensures forall n :: n in region && n !in Visited(h, Dict(t), j) ==> n.fields == old(n.fields)
    decreases j, 0
  {
    assert t in h && t in region && PartlyMasked(h[t], t.fields);
    if Sensitive(k) {
      ghost var was := t.fields;
      t.fields := t.fields[k := Leaf(MASK)];
      assert PartlyMasked(h[t], t.fields) && PartlyMasked(was, t.fields);
    } else {
      assert t.fields[k] == h[t][k];
      VisitedBelow(h, t, j, k);
      RedactValue(t.fields[k], j.fields[k], h, region);
    }
  }

  /** Redacting a whole body: the tree becomes its redacted form and nothing outside it changes. */
  method RedactTree(v: Value, ghost j: Json, ghost region: set<MapNode>)
    requires Denotes(Snap(region), v, j)
    modifies region
    ensures Denotes(Snap(region), v, RedactJson(j))
    ensures forall n :: n in region && n !in Visited(old(Snap(region)), v, j) ==> n.fields == old(n.fields)
  {
    ghost var h := Snap(region);
    RedactValue(v, j, h, region);
    MaskedDenotes(h, Snap(region), v, j);
  }
}
