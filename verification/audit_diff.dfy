/** The structural diff of two audit snapshots: audit_compress.go, lines 31-43 and 208-284. */
module AuditDiff {
  import opened Text
  import opened Ordering
  import opened JsonValue

  datatype Kind = Added | Removed | Changed

  datatype AuditChange = AuditChange(path: string, before: Json, after: Json, kind: Kind)

  const SKIP_EXACT: set<string> := {
    "password", "passwd", "old_password", "new_password",
    "token", "access_token", "refresh_token", "secret",
    "session_key", "jwt", "otp", "otp_secret", "opt_secret",
    "sms_code", "authorization", "cookie",
    "context", "logs",
    "phone_hash", "phone_enc", "phone_sec",
    "private", "merchant_api_key", "api_key", "user_key"
  }

  const SKIP_SUFFIX: set<string> := {
    "updated_at", "updated_time", "created_time", "created_at", "join_at"
  }

  /** What follows the last dot, or the whole path when there is none. */
  function LastKey(path: string): string {
    if '.' in path then LastKey(path[1..]) else path
  }

  predicate SkipAuditPath(path: string) {
    path != "" &&
    var low := Lower(path);
    || Lower(LastKey(path)) in SKIP_EXACT
    || (exists s | s in SKIP_SUFFIX :: HasSuffix(low, s) || LastKey(path) == s)
    || HasPrefix(low, "logs")
    || HasPrefix(low, "context.")
  }

  function Child(path: string, k: string): string {
    if path == "" then k else path + "." + k
  }

  /** The path reached from `path` by following `keys` downwards. */
  function Extend(path: string, keys: seq<string>): string
    decreases |keys|
  {
    if keys == [] then path else Extend(Child(path, keys[0]), keys[1..])
  }

  function KindOf(before: Json, after: Json): Kind {
    if before.Null? then Added else if after.Null? then Removed else Changed
  }

  /** One difference, addressed by the keys that lead to it. */
  datatype Edit = Edit(keys: seq<string>, before: Json, after: Json)

  /** The differences below `path`, keys relative to it, children in increasing key order. */
  ghost function Edits(path: string, before: Json, after: Json): seq<Edit>
    decreases Height(before) + Height(after), 1, 0
  {
    if SkipAuditPath(path) || before == after then []
    else if MapOrNull(before) && MapOrNull(after) then
      EditsOf(path, SortedKeys(KeysOf(before) + KeysOf(after)), before, after)
    else [Edit([], before, after)]
  }

  ghost function EditsOf(path: string, names: seq<string>, before: Json, after: Json): seq<Edit>
    requires before.Obj? || after.Obj?
    decreases Height(before) + Height(after), 0, |names|
  {
    if names == [] then []
    else
      HeightGet(before, names[0]);
      HeightGet(after, names[0]);
      Under(names[0], Edits(Child(path, names[0]), Get(before, names[0]), Get(after, names[0])))
      + EditsOf(path, names[1..], before, after)
  }

  function Under(k: string, es: seq<Edit>): seq<Edit> {
    seq(|es|, i requires 0 <= i < |es| => Edit([k] + es[i].keys, es[i].before, es[i].after))
  }

  function Rendered(path: string, es: seq<Edit>): seq<AuditChange> {
    seq(|es|, i requires 0 <= i < |es| =>
      AuditChange(Extend(path, es[i].keys), es[i].before, es[i].after, KindOf(es[i].before, es[i].after)))
  }

  /** The changes the diff records, in traversal order. */
  ghost function Diff(path: string, before: Json, after: Json): seq<AuditChange> {
    Rendered(path, Edits(path, before, after))
  }

  lemma RenderedUnder(path: string, k: string, es: seq<Edit>)
    ensures Rendered(path, Under(k, es)) == Rendered(Child(path, k), es)
  {
    forall i | 0 <= i < |es|
      ensures Extend(path, Under(k, es)[i].keys) == Extend(Child(path, k), es[i].keys)
    {
      assert ([k] + es[i].keys)[1..] == es[i].keys;
    }
  }

  lemma DiffStep(path: string, names: seq<string>, before: Json, after: Json)
    requires names != [] && (before.Obj? || after.Obj?)
    ensures Rendered(path, EditsOf(path, names, before, after))
         == Diff(Child(path, names[0]), Get(before, names[0]), Get(after, names[0]))
          + Rendered(path, EditsOf(path, names[1..], before, after))
  {
    var k := names[0];
    var es := Edits(Child(path, k), Get(before, k), Get(after, k));
    var rest := EditsOf(path, names[1..], before, after);
    assert EditsOf(path, names, before, after) == Under(k, es) + rest;
    RenderedConcat(path, Under(k, es), rest);
    RenderedUnder(path, k, es);
  }

  /** `DiffStep` with the changes already emitted in front. */
  lemma EmitStep(emitted: seq<AuditChange>, path: string, names: seq<string>, before: Json, after: Json)
    requires names != [] && (before.Obj? || after.Obj?)
    ensures emitted + Rendered(path, EditsOf(path, names, before, after))
         == emitted + Diff(Child(path, names[0]), Get(before, names[0]), Get(after, names[0]))
          + Rendered(path, EditsOf(path, names[1..], before, after))
  {
    DiffStep(path, names, before, after);
    ConcatAssociative(emitted, Diff(Child(path, names[0]), Get(before, names[0]), Get(after, names[0])),
      Rendered(path, EditsOf(path, names[1..], before, after)));
  }

  lemma RenderedConcat(path: string, xs: seq<Edit>, ys: seq<Edit>)
    ensures Rendered(path, xs + ys) == Rendered(path, xs) + Rendered(path, ys)
  {
  }

  lemma DiffOfMaps(path: string, before: Json, after: Json)
    requires !SkipAuditPath(path) && before != after && MapOrNull(before) && MapOrNull(after)
    ensures Diff(path, before, after)
         == Rendered(path, EditsOf(path, SortedKeys(KeysOf(before) + KeysOf(after)), before, after))
  {
  }

  // ----- the imperative walk -----

  /** The slice the Go code grows through `*out`. */
  class ChangeList {
    var items: seq<AuditChange>

    constructor ()
      ensures items == []
    {
      items := [];
    }

    method Append(c: AuditChange)
      modifies this
      ensures items == old(items) + [c]
    {
      items := items + [c];
    }
  }

  method DiffAuditValue(path: string, before: Json, after: Json, out: ChangeList)
    modifies out
    ensures out.items == old(out.items) + Diff(path, before, after)
    decreases Height(before) + Height(after), 1
  {
    if SkipAuditPath(path) {
      return;
    }
    if before == after {
      return;
    }
    if (before.Obj? || before.Null?) && (after.Obj? || after.Null?) && (before.Obj? || after.Obj?) {
      var keys := {};
      if before.Obj? { keys := keys + before.fields.Keys; }
      if after.Obj? { keys := keys + after.fields.Keys; }
      assert keys == KeysOf(before) + KeysOf(after);
      var names := SortedNames(keys);
      DiffOfMaps(path, before, after);
      DiffFields(path, names, before, after, out);
      return;
    }
    var kind := Changed;
    if before.Null? {
      kind := Added;
    } else if after.Null? {
      kind := Removed;
    }
    out.Append(AuditChange(path, before, after, kind));
  }

  /** The loop over the merged, sorted key list. */
  method DiffFields(path: string, names: seq<string>, before: Json, after: Json, out: ChangeList)
    requires before.Obj? || after.Obj?
    modifies out
    ensures out.items == old(out.items) + Rendered(path, EditsOf(path, names, before, after))
    decreases Height(before) + Height(after), 0
  {
    ghost var want := out.items + Rendered(path, EditsOf(path, names, before, after));
    var rest := names;
    while rest != []
      invariant out.items + Rendered(path, EditsOf(path, rest, before, after)) == want
      decreases |rest|
    {
      var k := rest[0];
      HeightGet(before, k);
      HeightGet(after, k);
      EmitStep(out.items, path, rest, before, after);
      DiffAuditValue(Child(path, k), Get(before, k), Get(after, k), out);
      rest := rest[1..];
    }
  }
}
