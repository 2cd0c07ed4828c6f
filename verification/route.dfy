/** Stripping the id parameters from a registered route, and what that leaves alone
    (oplog.go, lines 279-305 and 581-610). */
module Route {
  import opened Text
  import opened Ordering
  import opened Classify

  /** strings.ReplaceAll(s, old, ""), for a pattern that is not empty. */
  function RemoveAll(s: string, old_: string): string
    requires old_ != ""
    decreases |s|
  {
    if s == "" then ""
    else if HasPrefix(s, old_) then RemoveAll(s[|old_|..], old_)
    else [s[0]] + RemoveAll(s[1..], old_)
  }

  /** The path an operation is logged and metered under. */
  function StripRoute(fullPath: string): string {
    RemoveAll(RemoveAll(fullPath, "/:_id"), "/:id")
  }

  /** Every parameter part that starts like `name` is `name`. */
  predicate WholeParts(parts: seq<string>, name: string) {
    parts != [] && forall p | p in parts[1..] :: HasPrefix(p, name) ==> p == name
  }

  /** Routes whose parameters starting with ":id" or ":_id" are exactly these. */
  predicate PlainRoute(fullPath: string) {
    WholeParts(Split(fullPath, '/'), ":id") && WholeParts(Split(fullPath, '/'), ":_id")
  }

  // ----- removing whole parts -----

  /** The parts after the first, each with its slash in front. */
  function Slashed(parts: seq<string>): string {
    if parts == [] then "" else "/" + parts[0] + Slashed(parts[1..])
  }

  function Others(parts: seq<string>, name: string): seq<string> {
    if parts == [] then []
    else (if parts[0] == name then [] else [parts[0]]) + Others(parts[1..], name)
  }

  predicate NoSlash(parts: seq<string>) {
    forall p | p in parts :: '/' !in p
  }

  lemma SplitNoSlash(s: string)
    ensures NoSlash(Split(s, '/'))
  {
    SplitSingle(s, '/');
  }

  lemma PrefixChars(s: string, p: string, k: nat)
    requires HasPrefix(s, p) && k < |p|
    ensures s[k] == p[k]
  {
    assert s[..|p|][k] == p[k];
  }

  lemma {:induction false} RemovePassesOver(a: string, t: string, name: string)
    requires '/' !in a
    ensures RemoveAll(a + t, "/" + name) == a + RemoveAll(t, "/" + name)
    decreases |a|
  {
    if a == "" {
      assert a + t == t;
    } else {
      assert (a + t)[0] == a[0] && (a + t)[1..] == a[1..] + t;
      if HasPrefix(a + t, "/" + name) {
        PrefixChars(a + t, "/" + name, 0);
        assert false;
      }
      RemovePassesOver(a[1..], t, name);
      assert a == [a[0]] + a[1..];
    }
  }

  /** A name without a slash is a prefix of a part and what follows exactly when it is one of the part. */
  lemma PrefixStopsAtSlash(p: string, t: string, name: string)
    requires '/' !in name && (t == "" || t[0] == '/')
    ensures HasPrefix(p + t, name) <==> HasPrefix(p, name)
  {
    if |name| <= |p| {
      assert (p + t)[..|name|] == p[..|name|];
    } else if HasPrefix(p + t, name) {
      PrefixChars(p + t, name, |p|);
      assert false;
    }
  }

  lemma SlashPrefix(s: string, name: string)
    ensures HasPrefix("/" + s, "/" + name) <==> HasPrefix(s, name)
  {
    var t, n := "/" + s, "/" + name;
    if |name| <= |s| {
      assert t[..|n|] == "/" + s[..|name|];
      assert t[..|n|][1..] == s[..|name|] && n[1..] == name;
    }
  }

  lemma RemoveMatch(t: string, name: string)
    ensures RemoveAll("/" + name + t, "/" + name) == RemoveAll(t, "/" + name)
  {
    var s, n := "/" + name + t, "/" + name;
    assert s[..|n|] == n && s[|n|..] == t;
  }

  lemma RemoveMiss(p: string, t: string, name: string)
    requires '/' !in p && !HasPrefix(p + t, name)
    ensures RemoveAll("/" + p + t, "/" + name) == "/" + p + RemoveAll(t, "/" + name)
  {
    var s := "/" + (p + t);
    assert s == "/" + p + t;
    SlashPrefix(p + t, name);
    assert s[0] == '/' && s[1..] == p + t;
    RemovePassesOver(p, t, name);
  }

  /** What removing "/name" makes of the parts `rest` after the part `cur`: a part that starts with the
      name loses it, together with the slash in front, so what is left of it is glued to the part before. */
  function Glue(cur: string, rest: seq<string>, name: string): (r: seq<string>)
    ensures r != []
    decreases |rest|
  {
    if rest == [] then [cur]
    else if HasPrefix(rest[0], name) then Glue(cur + rest[0][|name|..], rest[1..], name)
    else [cur] + Glue(rest[0], rest[1..], name)
  }

  lemma FourParts(a: string, b: string, c: string, d: string)
    ensures a + (b + c) + d == a + b + (c + d)
  {
  }

  lemma RemoveGluedPart(left: string, tail: string, name: string)
    requires '/' !in left
    ensures RemoveAll("/" + (name + left) + tail, "/" + name) == left + RemoveAll(tail, "/" + name)
  {
    FourParts("/", name, left, tail);
    RemoveMatch(left + tail, name);
    RemovePassesOver(left, tail, name);
  }

  lemma {:induction false} RemoveGlues(cur: string, rest: seq<string>, name: string)
    requires NoSlash(rest) && '/' !in name
    ensures cur + RemoveAll(Slashed(rest), "/" + name) == Join(Glue(cur, rest, name), "/")
    decreases |rest|
  {
    if rest == [] {
      assert cur + "" == cur;
    } else {
      var p, tail := rest[0], Slashed(rest[1..]);
      var after := RemoveAll(tail, "/" + name);
      if HasPrefix(p, name) {
        var left := p[|name|..];
        assert p == name + left && p in rest;
        RemoveGluedPart(left, tail, name);
        RemoveGlues(cur + left, rest[1..], name);
        ConcatAssociative(cur, left, after);
      } else {
        PrefixStopsAtSlash(p, tail, name);
        RemoveMiss(p, tail, name);
        RemoveGlues(p, rest[1..], name);
        JoinCons(cur, Glue(p, rest[1..], name));
        FourParts(cur, "/", p, after);
        ConcatAssociative(cur, "/" + p, after);
      }
    }
  }

  lemma JoinCons(p: string, rest: seq<string>)
    requires rest != []
    ensures Join([p] + rest, "/") == p + "/" + Join(rest, "/")
  {
    assert ([p] + rest)[1..] == rest;
  }

  lemma {:induction false} GlueNoSlash(cur: string, rest: seq<string>, name: string)
    requires NoSlash([cur] + rest)
    ensures NoSlash(Glue(cur, rest, name))
    decreases |rest|
  {
    if rest != [] {
      assert rest[0] in [cur] + rest && cur in [cur] + rest;
      assert forall p :: p in rest[1..] ==> p in [cur] + rest;
      if HasPrefix(rest[0], name) {
        GlueNoSlash(cur + rest[0][|name|..], rest[1..], name);
      } else {
        GlueNoSlash(rest[0], rest[1..], name);
      }
    }
  }

  lemma {:induction false} JoinSlashed(parts: seq<string>)
    requires parts != []
    ensures Join(parts, "/") == parts[0] + Slashed(parts[1..])
    decreases |parts|
  {
    if |parts| > 1 {
      JoinSlashed(parts[1..]);
      assert parts[1..][0] == parts[1] && parts[1..][1..] == parts[2..];
      assert Slashed(parts[1..]) == "/" + parts[1] + Slashed(parts[2..]);
      assert parts[0] + "/" + (parts[1] + Slashed(parts[2..])) == parts[0] + ("/" + parts[1] + Slashed(parts[2..]));
    } else {
      assert parts[0] + "" == parts[0];
    }
  }

  /** Removing a parameter from a joined path is gluing its parts. */
  lemma RemoveFromRoute(parts: seq<string>, name: string)
    requires parts != [] && NoSlash(parts) && '/' !in name
    ensures RemoveAll(Join(parts, "/"), "/" + name) == Join(Glue(parts[0], parts[1..], name), "/")
  {
    JoinSlashed(parts);
    RemovePassesOver(parts[0], Slashed(parts[1..]), name);
    RemoveGlues(parts[0], parts[1..], name);
  }

  /** The parts of a path with a parameter removed. */
  lemma RemovedParts(path: string, name: string)
    requires '/' !in name
    ensures var parts := Split(path, '/');
      Split(RemoveAll(path, "/" + name), '/') == Glue(parts[0], parts[1..], name)
  {
    var parts := Split(path, '/');
    assert parts == [parts[0]] + parts[1..];
    SplitNoSlash(path);
    JoinSplit(path, '/');
    RemoveFromRoute(parts, name);
    GlueNoSlash(parts[0], parts[1..], name);
    SplitJoin(Glue(parts[0], parts[1..], name), '/');
  }

  /** Both removals, on the parts. */
  function GluedParts(parts: seq<string>): seq<string>
    requires parts != []
  {
    var once := Glue(parts[0], parts[1..], ":_id");
    Glue(once[0], once[1..], ":id")
  }

  /** The parts of any stripped route. */
  lemma StrippedIsGlued(fullPath: string)
    ensures Split(StripRoute(fullPath), '/') == GluedParts(Split(fullPath, '/'))
  {
    assert "/" + ":_id" == "/:_id" && "/" + ":id" == "/:id";
    RemovedParts(fullPath, ":_id");
    RemovedParts(RemoveAll(fullPath, "/:_id"), ":id");
  }

  /** Where the parameters are whole nothing is left to glue. */
  lemma {:induction false} GlueWhole(cur: string, rest: seq<string>, name: string)
    requires forall p :: p in rest && HasPrefix(p, name) ==> p == name
    ensures Glue(cur, rest, name) == [cur] + Others(rest, name)
    decreases |rest|
  {
    if rest != [] {
      if HasPrefix(rest[0], name) {
        assert cur + rest[0][|name|..] == cur;
        GlueWhole(cur, rest[1..], name);
        assert Others(rest, name) == Others(rest[1..], name);
      } else {
        GlueWhole(rest[0], rest[1..], name);
        NotItsPrefix(rest[0], name);
      }
    }
  }

  lemma NotItsPrefix(p: string, name: string)
    requires !HasPrefix(p, name)
    ensures p != name
  {
    assert name[..|name|] == name;
  }

  lemma {:induction false} OthersFacts(parts: seq<string>, name: string)
    ensures forall p :: p in Others(parts, name) <==> p in parts && p != name
    ensures |Others(parts, name)| <= |parts|
    decreases |parts|
  {
    if parts != [] {
      OthersFacts(parts[1..], name);
      assert forall p :: p in parts <==> p == parts[0] || p in parts[1..];
    }
  }

  lemma OthersStayPlain(first: string, parts: seq<string>, name: string, other: string)
    requires NoSlash([first] + parts) && WholeParts([first] + parts, other)
    ensures NoSlash([first] + Others(parts, name)) && WholeParts([first] + Others(parts, name), other)
  {
    OthersFacts(parts, name);
    assert ([first] + parts)[1..] == parts && ([first] + Others(parts, name))[1..] == Others(parts, name);
  }

  /** The parts of a stripped route whose parameters are whole. */
  lemma StrippedParts(fullPath: string)
    requires PlainRoute(fullPath)
    ensures var parts := Split(fullPath, '/');
      Split(StripRoute(fullPath), '/') == [parts[0]] + Others(Others(parts[1..], ":_id"), ":id")
  {
    var parts := Split(fullPath, '/');
    var first, tail := parts[0], parts[1..];
    var kept := Others(tail, ":_id");
    assert parts == [first] + tail;
    SplitNoSlash(fullPath);
    StrippedIsGlued(fullPath);
    GlueWhole(first, tail, ":_id");
    OthersStayPlain(first, tail, ":_id", ":id");
    assert ([first] + kept)[0] == first && ([first] + kept)[1..] == kept;
    GlueWhole(first, kept, ":id");
  }

  // ----- the class stays -----

  lemma {:induction false} OthersKeepSegments(parts: seq<string>, name: string)
    requires SilentPart(name)
    ensures PartSegments(Others(parts, name)) == PartSegments(parts)
    decreases |parts|
  {
    if parts != [] {
      OthersKeepSegments(parts[1..], name);
      if parts[0] == name {
        assert Others(parts, name) == Others(parts[1..], name);
      } else {
        assert ([parts[0]] + Others(parts[1..], name))[1..] == Others(parts[1..], name);
      }
    }
  }

  lemma FirstAndOthers(first: string, xs: seq<string>, ys: seq<string>)
    requires PartSegments(xs) == PartSegments(ys)
    ensures PartSegments([first] + xs) == PartSegments([first] + ys)
  {
    assert ([first] + xs)[1..] == xs && ([first] + ys)[1..] == ys;
  }

  /** Stripping the id parameters of a plain route changes neither its segments nor its class. */
  lemma StrippedClass(fullPath: string)
    requires PlainRoute(fullPath)
    ensures PathSegments(StripRoute(fullPath)) == PathSegments(fullPath)
    ensures ClassifyPath(StripRoute(fullPath)) == ClassifyPath(fullPath)
  {
    var parts := Split(fullPath, '/');
    StrippedParts(fullPath);
    ParameterIsSilent(":_id");
    ParameterIsSilent(":id");
    OthersKeepSegments(parts[1..], ":_id");
    OthersKeepSegments(Others(parts[1..], ":_id"), ":id");
    FirstAndOthers(parts[0], parts[1..], Others(Others(parts[1..], ":_id"), ":id"));
    assert [parts[0]] + parts[1..] == parts;
    ClassByParts(fullPath);
    ClassByParts(StripRoute(fullPath));
  }

  // ----- actions -----

  function ActionFromMethod(method_: string): string {
    var m := Upper(method_);
    if m == "POST" then "create"
    else if m == "PUT" || m == "PATCH" then "update"
    else if m == "DELETE" then "delete"
    else Lower(method_)
  }

  function ActionFromRequest(method_: string, path: string, query: string): string {
    var p := Lower(path + " " + query);
    if Contains(p, "/send") then "notify"
    else if Contains(p, "/transfer") || Contains(p, "ts=") then "transfer"
    else if Contains(p, "/reset") then "reset"
    else if Contains(p, "/enable") || Contains(p, "/disable") then "update"
    else ActionFromMethod(method_)
  }

  lemma OccursIn(s: string, p: string, i: nat)
    requires OccursAt(s, p, i)
    ensures Contains(s, p)
  {
    assert 0 <= i <= |s|;
  }

  lemma OccursChars(s: string, p: string, i: nat, k: nat)
    requires OccursAt(s, p, i) && k < |p|
    ensures s[i + k] == p[k]
  {
    assert s[i..i + |p|][k] == p[k];
  }

  lemma OccursLeft(x: string, t: string, p: string, i: nat)
    requires i + |p| <= |x|
    ensures OccursAt(x + t, p, i) <==> OccursAt(x, p, i)
  {
    assert (x + t)[i..i + |p|] == x[i..i + |p|];
  }

  lemma OccursRight(t: string, y: string, p: string, i: nat)
    ensures OccursAt(t + y, p, |t| + i) <==> OccursAt(y, p, i)
  {
    if i + |p| <= |y| {
      assert (t + y)[|t| + i..|t| + i + |p|] == y[i..i + |p|];
    }
  }

  lemma ContainsEither(x: string, t: string, y: string, p: string)
    requires Contains(x, p) || Contains(y, p)
    ensures Contains(x + t + y, p)
  {
    if Contains(x, p) {
      var i :| 0 <= i <= |x| && OccursAt(x, p, i);
      assert x + t + y == x + (t + y);
      OccursLeft(x, t + y, p, i);
      OccursIn(x + t + y, p, i);
    } else {
      var i :| 0 <= i <= |y| && OccursAt(y, p, i);
      OccursRight(x + t, y, p, i);
      OccursIn(x + t + y, p, |x + t| + i);
    }
  }

  /** A pattern that does not contain a separator is found on one side of it or the other. */
  lemma ContainsAcross(x: string, c: char, y: string, p: string)
    requires p != "" && c !in p
    ensures Contains(x + [c] + y, p) <==> Contains(x, p) || Contains(y, p)
  {
    var s := x + [c] + y;
    if Contains(x, p) || Contains(y, p) {
      ContainsEither(x, [c], y, p);
    }
    if Contains(s, p) {
      var i :| 0 <= i <= |s| && OccursAt(s, p, i);
      if i + |p| <= |x| {
        assert s == x + ([c] + y);
        OccursLeft(x, [c] + y, p, i);
        OccursIn(x, p, i);
      } else if i > |x| {
        OccursRight(x + [c], y, p, i - |x| - 1);
        OccursIn(y, p, i - |x| - 1);
      } else {
        OccursChars(s, p, i, |x| - i);
        assert false;
      }
    }
  }

  /** A pattern that starts with the separator and contains no other may also start at it. */
  lemma ContainsFrom(x: string, y: string, w: string)
    requires '/' !in w
    ensures Contains(x + "/" + y, "/" + w) <==> Contains(x, "/" + w) || HasPrefix(y, w) || Contains(y, "/" + w)
  {
    if Contains(x + "/" + y, "/" + w) {
      ContainsFromSplit(x, y, w);
    }
    if Contains(x, "/" + w) || Contains(y, "/" + w) {
      ContainsEither(x, "/", y, "/" + w);
    }
    if HasPrefix(y, w) {
      SlashPrefix(y, w);
      OccursRight(x, "/" + y, "/" + w, 0);
      assert x + "/" + y == x + ("/" + y);
      OccursIn(x + "/" + y, "/" + w, |x|);
    }
  }

  lemma ContainsFromSplit(x: string, y: string, w: string)
    requires '/' !in w && Contains(x + "/" + y, "/" + w)
    ensures Contains(x, "/" + w) || HasPrefix(y, w) || Contains(y, "/" + w)
  {
    var s, p := x + "/" + y, "/" + w;
    var i :| 0 <= i <= |s| && OccursAt(s, p, i);
    assert s == x + ("/" + y);
    if i + |p| <= |x| {
      OccursLeft(x, "/" + y, p, i);
      OccursIn(x, p, i);
    } else if i > |x| {
      OccursRight(x + "/", y, p, i - |x| - 1);
      OccursIn(y, p, i - |x| - 1);
    } else if i == |x| {
      OccursRight(x, "/" + y, p, 0);
      SlashPrefix(y, w);
    } else {
      OccursChars(s, p, i, |x| - i);
      assert false;
    }
  }

  lemma NoSlashNoMatch(s: string, w: string)
    requires '/' !in s
    ensures !Contains(s, "/" + w)
  {
    if Contains(s, "/" + w) {
      var i :| 0 <= i <= |s| && OccursAt(s, "/" + w, i);
      OccursChars(s, "/" + w, i, 0);
      assert false;
    }
  }

  /** Some part after the first starts with `w`. */
  predicate PartStarts(parts: seq<string>, w: string) {
    exists i | 1 <= i < |parts| :: HasPrefix(parts[i], w)
  }

  /** Some part contains `p`. */
  predicate PartContains(parts: seq<string>, p: string) {
    exists i | 0 <= i < |parts| :: Contains(parts[i], p)
  }

  lemma {:induction false} ContainsByParts(parts: seq<string>, p: string)
    requires parts != [] && p != "" && '/' !in p
    ensures Contains(Join(parts, "/"), p) <==> PartContains(parts, p)
    decreases |parts|
  {
    if |parts| > 1 {
      ContainsByParts(parts[1..], p);
      ContainsAcross(parts[0], '/', Join(parts[1..], "/"), p);
      if PartContains(parts[1..], p) {
        var i :| 0 <= i < |parts[1..]| && Contains(parts[1..][i], p);
        assert Contains(parts[i + 1], p);
      }
      if i :| 1 <= i < |parts| && Contains(parts[i], p) {
        assert Contains(parts[1..][i - 1], p);
      }
    }
  }

  lemma {:induction false} StartsByParts(parts: seq<string>, w: string)
    requires parts != [] && NoSlash(parts) && '/' !in w
    ensures Contains(Join(parts, "/"), "/" + w) <==> PartStarts(parts, w)
    decreases |parts|
  {
    NoSlashNoMatch(parts[0], w);
    if |parts| > 1 {
      var rest := parts[1..];
      StartsByParts(rest, w);
      ContainsFrom(parts[0], Join(rest, "/"), w);
      JoinSlashed(rest);
      PrefixStopsAtSlash(rest[0], Slashed(rest[1..]), w);
      if PartStarts(rest, w) {
        var i :| 1 <= i < |rest| && HasPrefix(rest[i], w);
        assert HasPrefix(parts[i + 1], w);
      }
      if i :| 1 <= i < |parts| && HasPrefix(parts[i], w) {
        assert HasPrefix(rest[i - 1], w);
      }
      assert rest[0] == parts[1];
    }
  }

  function LowerAll(parts: seq<string>): seq<string> {
    seq(|parts|, i requires 0 <= i < |parts| => Lower(parts[i]))
  }

  lemma {:induction false} LowerJoin(parts: seq<string>)
    ensures Lower(Join(parts, "/")) == Join(LowerAll(parts), "/")
    decreases |parts|
  {
    if |parts| > 1 {
      LowerJoin(parts[1..]);
      LowerConcat(parts[0] + "/", Join(parts[1..], "/"));
      LowerConcat(parts[0], "/");
      assert LowerAll(parts)[1..] == LowerAll(parts[1..]);
      assert Lower("/") == "/";
    }
  }

  /** What the action looks for in the path: a word at the start of a part, or inside a part. */
  lemma ActionByParts(path: string, query: string, w: string)
    requires '/' !in w && ' ' !in w && w != ""
    ensures var low := Lower(path + " " + query);
      && (Contains(low, "/" + w) <==> PartStarts(LowerAll(Split(path, '/')), w) || Contains(Lower(query), "/" + w))
      && (Contains(low, w) <==> PartContains(LowerAll(Split(path, '/')), w) || Contains(Lower(query), w))
  {
    var parts := Split(path, '/');
    SplitSingle(path, '/');
    JoinSplit(path, '/');
    LowerJoin(parts);
    LowerConcat(path + " ", query);
    LowerConcat(path, " ");
    assert Lower(" ") == [' '];
    ContainsAcross(Lower(path), ' ', Lower(query), "/" + w);
    ContainsAcross(Lower(path), ' ', Lower(query), w);
    forall p | p in LowerAll(parts)
      ensures '/' !in p
    {
      var i :| 0 <= i < |parts| && LowerAll(parts)[i] == p;
      LowerKeepsSlash(parts[i]);
    }
    StartsByParts(LowerAll(parts), w);
    ContainsByParts(LowerAll(parts), w);
  }

  /** Leaving out parameter parts does not affect where a word starts or occurs. */
  lemma OthersKeepWords(first: string, parts: seq<string>, name: string, w: string)
    requires !HasPrefix(Lower(name), w) && !Contains(Lower(name), w)
    ensures PartStarts(LowerAll([first] + Others(parts, name)), w) <==> PartStarts(LowerAll([first] + parts), w)
    ensures PartContains(LowerAll([first] + Others(parts, name)), w) <==> PartContains(LowerAll([first] + parts), w)
  {
    OthersFacts(parts, name);
    var xs, ys := [first] + Others(parts, name), [first] + parts;
    forall i | 1 <= i < |xs| && HasPrefix(Lower(xs[i]), w)
      ensures PartStarts(LowerAll(ys), w)
    {
      assert xs[i] in Others(parts, name);
      var j :| 0 <= j < |parts| && parts[j] == xs[i];
      assert HasPrefix(LowerAll(ys)[j + 1], w);
    }
    forall i | 1 <= i < |ys| && HasPrefix(Lower(ys[i]), w)
      ensures PartStarts(LowerAll(xs), w)
    {
      assert ys[i] in parts && ys[i] != name;
      var j :| 0 <= j < |Others(parts, name)| && Others(parts, name)[j] == ys[i];
      assert HasPrefix(LowerAll(xs)[j + 1], w);
    }
    forall i | 0 <= i < |xs| && Contains(Lower(xs[i]), w)
      ensures PartContains(LowerAll(ys), w)
    {
      if i == 0 {
        assert Contains(LowerAll(ys)[0], w);
      } else {
        assert xs[i] in Others(parts, name);
        var j :| 0 <= j < |parts| && parts[j] == xs[i];
        assert Contains(LowerAll(ys)[j + 1], w);
      }
    }
    forall i | 0 <= i < |ys| && Contains(Lower(ys[i]), w)
      ensures PartContains(LowerAll(xs), w)
    {
      if i == 0 {
        assert Contains(LowerAll(xs)[0], w);
      } else {
        assert ys[i] in parts && ys[i] != name;
        var j :| 0 <= j < |Others(parts, name)| && Others(parts, name)[j] == ys[i];
        assert Contains(LowerAll(xs)[j + 1], w);
      }
    }
  }

  lemma StrippedWord(fullPath: string, query: string, w: string)
    requires PlainRoute(fullPath) && '/' !in w && ' ' !in w && w != ""
    requires !HasPrefix(Lower(":id"), w) && !Contains(Lower(":id"), w)
    requires !HasPrefix(Lower(":_id"), w) && !Contains(Lower(":_id"), w)
    ensures Contains(Lower(StripRoute(fullPath) + " " + query), "/" + w)
       <==> Contains(Lower(fullPath + " " + query), "/" + w)
    ensures Contains(Lower(StripRoute(fullPath) + " " + query), w) <==> Contains(Lower(fullPath + " " + query), w)
  {
    var parts := Split(fullPath, '/');
    StrippedParts(fullPath);
    ActionByParts(fullPath, query, w);
    ActionByParts(StripRoute(fullPath), query, w);
    OthersKeepWords(parts[0], parts[1..], ":_id", w);
    OthersKeepWords(parts[0], Others(parts[1..], ":_id"), ":id", w);
    assert [parts[0]] + parts[1..] == parts;
  }

  /** The words the action looks for do not occur in an id parameter. */
  lemma WordNotInParameter(w: string, name: string)
    requires name == ":id" || name == ":_id"
    requires |w| >= 3 && w[0] != ':' && w[0] != '_'
    requires w[0] != 'i'
    ensures !HasPrefix(Lower(name), w) && !Contains(Lower(name), w)
  {
    var low := Lower(name);
    forall i | 0 <= i <= |low|
      ensures !OccursAt(low, w, i)
    {
      assert i + |w| <= |low| ==> low[i..i + |w|][0] == low[i];
    }
    assert |w| <= |low| ==> low[..|w|][0] == low[0];
  }

  lemma StrippedActionWord(fullPath: string, query: string, w: string)
    requires PlainRoute(fullPath) && '/' !in w && ' ' !in w
    requires |w| >= 3 && w[0] != ':' && w[0] != '_' && w[0] != 'i'
    ensures Contains(Lower(StripRoute(fullPath) + " " + query), "/" + w)
       <==> Contains(Lower(fullPath + " " + query), "/" + w)
    ensures Contains(Lower(StripRoute(fullPath) + " " + query), w) <==> Contains(Lower(fullPath + " " + query), w)
  {
    WordNotInParameter(w, ":id");
    WordNotInParameter(w, ":_id");
    StrippedWord(fullPath, query, w);
  }

  /** Stripping the id parameters of a plain route does not change the action. */
  lemma StrippedAction(method_: string, fullPath: string, query: string)
    requires PlainRoute(fullPath)
    ensures ActionFromRequest(method_, StripRoute(fullPath), query) == ActionFromRequest(method_, fullPath, query)
  {
    StrippedActionWord(fullPath, query, "send");
    StrippedActionWord(fullPath, query, "transfer");
    StrippedActionWord(fullPath, query, "ts=");
    StrippedActionWord(fullPath, query, "reset");
    StrippedActionWord(fullPath, query, "enable");
    StrippedActionWord(fullPath, query, "disable");
    assert "/" + "send" == "/send" && "/" + "transfer" == "/transfer" && "/" + "reset" == "/reset";
    assert "/" + "enable" == "/enable" && "/" + "disable" == "/disable";
  }
}
