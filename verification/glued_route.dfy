/** When stripping the id parameters of a route changes what the classifier and the action read off it,
    for parameters that merely start like an id as well (oplog.go, lines 279-291 and 596-610). */
module GluedRoute {
  import opened Text
  import opened Classify
  import opened Route

  predicate Param(p: string) {
    p != "" && p[0] == ':'
  }

  /** Whatever is left of a part that starts with the name ends up in a parameter. */
  predicate Harmless(cur: string, rest: seq<string>, name: string)
    decreases |rest|
  {
    if rest == [] then true
    else if HasPrefix(rest[0], name) then
      var glued := cur + rest[0][|name|..];
      (rest[0] == name || Param(glued)) && Harmless(glued, rest[1..], name)
    else Harmless(rest[0], rest[1..], name)
  }

  /** Neither removal glues anything to a part that is not a parameter. */
  predicate KeepsSegments(parts: seq<string>)
    requires parts != []
  {
    var once := Glue(parts[0], parts[1..], ":_id");
    Harmless(parts[0], parts[1..], ":_id") && Harmless(once[0], once[1..], ":id")
  }

  // ----- harmless gluing keeps the segments -----

  /** What a part contributes, up to a query of its own. */
  function Read(p: string): seq<string> {
    Segment(Lower(if '?' in p then Cut(p) else p))
  }

  lemma ReadCons(p: string, rest: seq<string>)
    ensures PartSegments([p] + rest) == if '?' in p then Read(p) else Read(p) + PartSegments(rest)
  {
    assert ([p] + rest)[1..] == rest;
  }

  lemma ParamReadsNothing(p: string)
    requires Param(p) || p == ""
    ensures Read(p) == []
  {
    if p != "" {
      var q := if '?' in p then Cut(p) else p;
      assert q != "" && q[0] == ':';
      var low := Lower(q);
      assert low[0] == ':';
      TrimKeepsFirst(low);
    }
  }

  lemma GluedInto(cur: string, left: string, p: string, rest: seq<string>)
    requires Param(p) && Param(cur + left) && ('?' in left ==> '?' in p) && ('?' in p ==> '?' in left)
    ensures PartSegments([cur] + ([p] + rest)) == PartSegments([cur + left] + rest)
  {
    ParamReadsNothing(cur);
    ParamReadsNothing(p);
    ParamReadsNothing(cur + left);
    ReadCons(cur, [p] + rest);
    ReadCons(p, rest);
    ReadCons(cur + left, rest);
    assert '?' in cur + left <==> '?' in cur || '?' in left;
  }

  lemma {:induction false} HarmlessSegments(cur: string, rest: seq<string>, name: string)
    requires SilentPart(name) && Param(name) && Harmless(cur, rest, name)
    ensures PartSegments(Glue(cur, rest, name)) == PartSegments([cur] + rest)
    decreases |rest|
  {
    if rest == [] {
      assert [cur] + rest == [cur];
    } else {
      var p, tail := rest[0], rest[1..];
      assert rest == [p] + tail;
      if HasPrefix(p, name) {
        var left := p[|name|..];
        assert p == name + left;
        HarmlessSegments(cur + left, tail, name);
        if p == name {
          assert cur + left == cur;
          PartSegmentsInsert([cur], p, tail);
          assert [cur] + [p] + tail == [cur] + rest;
        } else {
          GluedInto(cur, left, p, tail);
        }
      } else {
        HarmlessSegments(p, tail, name);
        FirstAndOthers(cur, Glue(p, tail, name), rest);
      }
    }
  }

  lemma IdsAreSilent()
    ensures SilentPart(":_id") && Param(":_id") && SilentPart(":id") && Param(":id")
  {
    ParameterIsSilent(":_id");
    ParameterIsSilent(":id");
  }

  lemma KeptSegments(path: string)
    requires KeepsSegments(Split(path, '/'))
    ensures PartSegments(Split(StripRoute(path), '/')) == PartSegments(Split(path, '/'))
  {
    var parts := Split(path, '/');
    var once := Glue(parts[0], parts[1..], ":_id");
    IdsAreSilent();
    StrippedIsGlued(path);
    HarmlessSegments(parts[0], parts[1..], ":_id");
    HarmlessSegments(once[0], once[1..], ":id");
    assert [parts[0]] + parts[1..] == parts && [once[0]] + once[1..] == once;
  }

  /** Then the class is kept too. */
  lemma KeptClass(path: string)
    requires KeepsSegments(Split(path, '/'))
    ensures PathSegments(StripRoute(path)) == PathSegments(path)
    ensures ClassifyPath(StripRoute(path)) == ClassifyPath(path)
  {
    KeptSegments(path);
    ClassByParts(path);
    ClassByParts(StripRoute(path));
  }

  // ----- any other gluing changes them -----

  /** How many bytes of a part get into the segments, when it has no white space and no query. */
  function Weight(p: string): nat {
    if p == "" || p[0] == ':' then 0 else |p|
  }

  function Weights(parts: seq<string>): nat {
    if parts == [] then 0 else Weight(parts[0]) + Weights(parts[1..])
  }

  lemma WeightsCons(p: string, rest: seq<string>)
    ensures Weights([p] + rest) == Weight(p) + Weights(rest)
  {
    assert ([p] + rest)[1..] == rest;
  }

  /** Gluing never makes the segments shorter, and keeps their length only when it is harmless. */
  lemma {:induction false} GlueWeighs(cur: string, rest: seq<string>, name: string)
    requires Param(name)
    ensures Weights(Glue(cur, rest, name)) >= Weight(cur) + Weights(rest)
    ensures Weights(Glue(cur, rest, name)) == Weight(cur) + Weights(rest) <==> Harmless(cur, rest, name)
    decreases |rest|
  {
    if rest == [] {
      WeightsCons(cur, []);
    } else {
      var p, tail := rest[0], rest[1..];
      if HasPrefix(p, name) {
        var left := p[|name|..];
        assert p == name + left && p[0] == ':';
        assert left == "" <==> p == name;
        if left == "" { assert cur + left == cur; }
        GlueWeighs(cur + left, tail, name);
      } else {
        GlueWeighs(p, tail, name);
        WeightsCons(cur, Glue(p, tail, name));
      }
    }
  }

  function Total(segs: seq<string>): nat {
    if segs == [] then 0 else |segs[0]| + Total(segs[1..])
  }

  predicate ClearChar(c: char) {
    !IsSpace(c) && c != '?'
  }

  /** No white space and no query, as in any registered route. */
  predicate Clear(s: string) {
    forall i | 0 <= i < |s| :: ClearChar(s[i])
  }

  predicate AllClear(parts: seq<string>) {
    forall i | 0 <= i < |parts| :: Clear(parts[i])
  }

  lemma ReadClear(p: string)
    requires Clear(p)
    ensures '?' !in p && Read(p) == if Weight(p) == 0 then [] else [Lower(p)]
  {
    if p == "" || p[0] == ':' {
      ParamReadsNothing(p);
    } else {
      var low := Lower(p);
      assert forall i :: 0 <= i < |low| ==> low[i] == LowerChar(p[i]);
      assert Trimmed(low);
      TrimFacts(low);
    }
  }

  lemma {:induction false} TotalIsWeights(parts: seq<string>)
    requires AllClear(parts)
    ensures Total(PartSegments(parts)) == Weights(parts)
    decreases |parts|
  {
    if parts != [] {
      var p, rest := parts[0], parts[1..];
      assert parts == [p] + rest;
      TotalIsWeights(rest);
      ReadClear(p);
      ReadCons(p, rest);
      if Weight(p) == 0 {
        assert [] + PartSegments(rest) == PartSegments(rest);
      } else {
        assert ([Lower(p)] + PartSegments(rest))[1..] == PartSegments(rest);
      }
    }
  }

  lemma {:induction false} GlueClear(cur: string, rest: seq<string>, name: string)
    requires Clear(cur) && AllClear(rest)
    ensures AllClear(Glue(cur, rest, name))
    decreases |rest|
  {
    if rest != [] {
      if HasPrefix(rest[0], name) {
        GlueClear(cur + rest[0][|name|..], rest[1..], name);
      } else {
        GlueClear(rest[0], rest[1..], name);
      }
    }
  }

  lemma SplitClear(path: string)
    requires Clear(path)
    ensures AllClear(Split(path, '/'))
  {
    SplitChars(path, '/');
    var parts := Split(path, '/');
    forall j, i | 0 <= j < |parts| && 0 <= i < |parts[j]|
      ensures ClearChar(parts[j][i])
    {
      assert parts[j][i] in path;
    }
  }

  lemma StrippedWeighs(parts: seq<string>)
    requires parts != []
    ensures Weights(GluedParts(parts)) >= Weights(parts)
    ensures Weights(GluedParts(parts)) == Weights(parts) <==> KeepsSegments(parts)
  {
    var once := Glue(parts[0], parts[1..], ":_id");
    IdsAreSilent();
    GlueWeighs(parts[0], parts[1..], ":_id");
    GlueWeighs(once[0], once[1..], ":id");
  }

  /** Stripping a route keeps what its parts contribute exactly when nothing is glued to a part that is
      not a parameter; otherwise they contribute more bytes than before. */
  lemma StrippedPartsIff(path: string)
    requires Clear(path)
    ensures var a, b := PartSegments(Split(path, '/')), PartSegments(Split(StripRoute(path), '/'));
      && (KeepsSegments(Split(path, '/')) ==> b == a)
      && (!KeepsSegments(Split(path, '/')) ==> Total(b) > Total(a))
  {
    var parts := Split(path, '/');
    if KeepsSegments(parts) {
      KeptSegments(path);
    } else {
      var once := Glue(parts[0], parts[1..], ":_id");
      StrippedIsGlued(path);
      StrippedWeighs(parts);
      SplitClear(path);
      GlueClear(parts[0], parts[1..], ":_id");
      GlueClear(once[0], once[1..], ":id");
      TotalIsWeights(parts);
      TotalIsWeights(GluedParts(parts));
    }
  }

  /** Lists that differ in length of text agree without a version only if the longer one adds just that. */
  lemma VersionHides(a: seq<string>, b: seq<string>)
    requires Total(b) > Total(a)
    ensures WithoutVersion(b) == WithoutVersion(a) <==> (a == [] || a[0] != "v1") && b == ["v1"] + a
  {
    var v := ["v1"] + a;
    assert v[0] == "v1" && v[1..] == a;
    if b != [] && b[0] == "v1" { assert b == ["v1"] + b[1..]; }
    if a != [] && a[0] == "v1" { assert Total(a) == 2 + Total(a[1..]); }
  }

  /** Stripping a route keeps its segments exactly when nothing is glued to a part that is not a parameter,
      or when all that gluing adds is a version in front of segments that had none. */
  lemma StrippedSegmentsIff(path: string)
    requires Clear(path)
    ensures var a, b := PartSegments(Split(path, '/')), PartSegments(GluedParts(Split(path, '/')));
      PathSegments(StripRoute(path)) == PathSegments(path) <==>
        || KeepsSegments(Split(path, '/'))
        || ((a == [] || a[0] != "v1") && b == ["v1"] + a)
  {
    StrippedPartsIff(path);
    StrippedIsGlued(path);
    ClassByParts(path);
    ClassByParts(StripRoute(path));
    if !KeepsSegments(Split(path, '/')) {
      VersionHides(PartSegments(Split(path, '/')), PartSegments(GluedParts(Split(path, '/'))));
    }
  }

  // ----- whole parameters -----

  lemma {:induction false} WholeHarmless(cur: string, rest: seq<string>, name: string)
    requires forall p :: p in rest && HasPrefix(p, name) ==> p == name
    ensures Harmless(cur, rest, name)
    decreases |rest|
  {
    if rest != [] {
      if HasPrefix(rest[0], name) {
        WholeHarmless(cur + rest[0][|name|..], rest[1..], name);
      } else {
        WholeHarmless(rest[0], rest[1..], name);
      }
    }
  }

  /** Routes whose id parameters are whole are among those that keep their segments. */
  lemma PlainKeepsSegments(path: string)
    requires PlainRoute(path)
    ensures KeepsSegments(Split(path, '/'))
  {
    var parts := Split(path, '/');
    var first, tail := parts[0], parts[1..];
    var kept := Others(tail, ":_id");
    assert parts == [first] + tail;
    SplitNoSlash(path);
    WholeHarmless(first, tail, ":_id");
    GlueWhole(first, tail, ":_id");
    OthersStayPlain(first, tail, ":_id", ":id");
    assert ([first] + kept)[0] == first && ([first] + kept)[1..] == kept;
    WholeHarmless(first, kept, ":id");
  }

  // ----- the action -----

  predicate StartsLower(p: string, w: string) {
    HasPrefix(Lower(p), w)
  }

  lemma ParamStartsNothing(p: string, w: string)
    requires w != "" && w[0] != ':' && (Param(p) || p == "")
    ensures !StartsLower(p, w)
  {
    assert |w| <= |p| ==> Lower(p)[..|w|][0] == ':';
  }

  /** Some part after the first starts with `w`, letter case aside. */
  predicate LaterStarts(parts: seq<string>, w: string) {
    parts != [] && exists i | 1 <= i < |parts| :: StartsLower(parts[i], w)
  }

  lemma LaterCons(first: string, p: string, rest: seq<string>, w: string)
    ensures LaterStarts([first] + ([p] + rest), w) <==> StartsLower(p, w) || LaterStarts([p] + rest, w)
  {
    var xs, ys := [first] + ([p] + rest), [p] + rest;
    assert forall i :: 1 <= i < |xs| ==> xs[i] == ys[i - 1];
    assert forall i :: 1 <= i < |ys| ==> xs[i + 1] == ys[i];
    assert xs[1] == p;
  }

  lemma LaterFirst(first: string, other: string, rest: seq<string>, w: string)
    ensures LaterStarts([first] + rest, w) <==> LaterStarts([other] + rest, w)
  {
    assert forall i :: 1 <= i < |[first] + rest| ==> ([first] + rest)[i] == ([other] + rest)[i];
  }

  lemma {:induction false} HarmlessStarts(cur: string, rest: seq<string>, name: string, w: string)
    requires Param(name) && w != "" && w[0] != ':' && Harmless(cur, rest, name)
    ensures var g := Glue(cur, rest, name);
      && (StartsLower(g[0], w) <==> StartsLower(cur, w))
      && (LaterStarts(g, w) <==> LaterStarts([cur] + rest, w))
    decreases |rest|
  {
    if rest == [] {
      assert [cur] + rest == [cur];
    } else {
      var p, tail := rest[0], rest[1..];
      assert rest == [p] + tail;
      LaterCons(cur, p, tail, w);
      if HasPrefix(p, name) {
        var glued := cur + p[|name|..];
        assert p[..|name|][0] == ':';
        ParamStartsNothing(p, w);
        HarmlessStarts(glued, tail, name, w);
        LaterFirst(glued, p, tail, w);
        if p == name {
          assert glued == cur;
        } else {
          ParamStartsNothing(glued, w);
          ParamStartsNothing(cur, w);
        }
      } else {
        HarmlessStarts(p, tail, name, w);
        var g := Glue(p, tail, name);
        assert g == [g[0]] + g[1..];
        LaterCons(cur, g[0], g[1..], w);
      }
    }
  }

  lemma LaterIsPartStarts(parts: seq<string>, w: string)
    requires parts != []
    ensures LaterStarts(parts, w) <==> PartStarts(LowerAll(parts), w)
  {
    assert forall i :: 0 <= i < |parts| ==> LowerAll(parts)[i] == Lower(parts[i]);
  }

  /** Words that the action looks for at the start of a part stay where they were. */
  lemma KeptWord(path: string, query: string, w: string, slashed: string)
    requires KeepsSegments(Split(path, '/')) && '/' !in w && ' ' !in w && w != "" && w[0] != ':'
    requires slashed == "/" + w
    ensures Contains(Lower(StripRoute(path) + " " + query), slashed) <==> Contains(Lower(path + " " + query), slashed)
  {
    var parts := Split(path, '/');
    var once := Glue(parts[0], parts[1..], ":_id");
    IdsAreSilent();
    HarmlessStarts(parts[0], parts[1..], ":_id", w);
    HarmlessStarts(once[0], once[1..], ":id", w);
    assert [parts[0]] + parts[1..] == parts && [once[0]] + once[1..] == once;
    StrippedIsGlued(path);
    LaterIsPartStarts(parts, w);
    LaterIsPartStarts(GluedParts(parts), w);
    ActionByParts(path, query, w);
    ActionByParts(StripRoute(path), query, w);
  }

  lemma {:induction false} RemovedChars(s: string, pattern: string, c: char)
    requires pattern != "" && c !in s
    ensures c !in RemoveAll(s, pattern)
    decreases |s|
  {
    if s != "" {
      assert s[0] in s && forall x :: x in s[1..] ==> x in s;
      if HasPrefix(s, pattern) {
        assert forall x :: x in s[|pattern|..] ==> x in s;
        RemovedChars(s[|pattern|..], pattern, c);
      } else {
        RemovedChars(s[1..], pattern, c);
      }
    }
  }

  lemma AbsentFromPath(path: string, query: string, w: string)
    requires '/' !in w && ' ' !in w && w != "" && w[|w| - 1] == '=' && '=' !in path
    ensures Contains(Lower(path + " " + query), w) <==> Contains(Lower(query), w)
  {
    LowerConcat(path + " ", query);
    LowerConcat(path, " ");
    assert Lower(" ") == [' '];
    ContainsAcross(Lower(path), ' ', Lower(query), w);
    var low, k := Lower(path), |w| - 1;
    forall i | 0 <= i <= |low|
      ensures !OccursAt(low, w, i)
    {
      if i + |w| <= |low| {
        assert low[i..i + |w|][k] == low[i + k] == LowerChar(path[i + k]);
        assert path[i + k] in path;
      }
    }
  }

  lemma KeptAssignment(path: string, query: string, w: string)
    requires '/' !in w && ' ' !in w && w != "" && w[|w| - 1] == '=' && '=' !in path
    ensures Contains(Lower(StripRoute(path) + " " + query), w) <==> Contains(Lower(path + " " + query), w)
  {
    RemovedChars(path, "/:_id", '=');
    RemovedChars(RemoveAll(path, "/:_id"), "/:id", '=');
    AbsentFromPath(path, query, w);
    AbsentFromPath(StripRoute(path), query, w);
  }

  /** Stripping such a route without '=' does not change the action, for any method and query. */
  lemma KeptAction(method_: string, path: string, query: string)
    requires KeepsSegments(Split(path, '/')) && '=' !in path
    ensures ActionFromRequest(method_, StripRoute(path), query) == ActionFromRequest(method_, path, query)
  {
    KeptWord(path, query, "send", "/send");
    KeptWord(path, query, "transfer", "/transfer");
    KeptWord(path, query, "reset", "/reset");
    KeptWord(path, query, "enable", "/enable");
    KeptWord(path, query, "disable", "/disable");
    KeptAssignment(path, query, "ts=");
  }

  // ----- routes that are stripped away -----

  lemma {:induction false} NoWeightNoSegments(parts: seq<string>)
    requires Weights(parts) == 0
    ensures PartSegments(parts) == []
    decreases |parts|
  {
    if parts != [] {
      assert parts == [parts[0]] + parts[1..];
      ParamReadsNothing(parts[0]);
      ReadCons(parts[0], parts[1..]);
      NoWeightNoSegments(parts[1..]);
    }
  }

  /** A route of which stripping leaves nothing has no segments, hence no service. */
  lemma EmptiedRoute(path: string)
    requires StripRoute(path) == ""
    ensures PathSegments(path) == [] && ClassifyPath(path) == OTHER_CLASS
  {
    var parts := Split(path, '/');
    StrippedIsGlued(path);
    assert Split("", '/') == [""];
    WeightsCons("", []);
    assert [""] + [] == [""];
    StrippedWeighs(parts);
    NoWeightNoSegments(parts);
    ClassByParts(path);
  }
}
