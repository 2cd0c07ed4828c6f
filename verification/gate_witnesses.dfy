/** Requests on which the quota gate and the meter disagree, one for each condition of their agreement
    (usage_quota.go, lines 54-95; oplog.go, lines 279-307; oplog_classify.go, lines 254-285). */
module GateWitnesses {
  import opened Text
  import opened Classify
  import opened Route
  import opened GluedRoute
  import opened Usage
  import opened GateMeter

  // ----- paths that are neither skipped nor reworded -----

  /** No upper case, no assignment, and after a slash no byte that a skipped part or an action starts with. */
  predicate Quiet(p: string) {
    forall i | 0 <= i < |p| ::
      && !('A' <= p[i] <= 'Z') && p[i] != '='
      && (p[i] == '/' && i + 1 < |p| ==> p[i + 1] !in {'a', 'd', 'e', 'h', 'l', 'm', 'p', 'r', 's', 't'})
  }

  lemma QuietLacks(p: string, w: string)
    requires Quiet(p) && |w| >= 2 && w[0] == '/'
    requires w[1] in {'a', 'd', 'e', 'h', 'l', 'm', 'p', 'r', 's', 't'}
    ensures !Contains(p, w)
  {
    forall i | 0 <= i <= |p|
      ensures !OccursAt(p, w, i)
    {
      if i + |w| <= |p| {
        assert p[i..i + |w|][0] == p[i] && p[i..i + |w|][1] == p[i + 1];
      }
    }
  }

  lemma QuietNotSkipped(fullPath: string, urlPath: string)
    requires Quiet(fullPath) && Quiet(urlPath)
    ensures !SkipOperatePath(fullPath, urlPath)
  {
    assert Lower(fullPath) == fullPath && Lower(urlPath) == urlPath;
    forall part | part in SKIP_PATH_PARTS
      ensures !Contains(Lower(fullPath + " " + urlPath), part)
    {
      SkipOnOneSide(fullPath, urlPath, part);
      QuietLacks(fullPath, part);
      QuietLacks(urlPath, part);
    }
  }

  lemma QuietCreates(p: string)
    requires Quiet(p)
    ensures ActionFromRequest("POST", p, "") == "create"
  {
    var low := p + " ";
    assert Lower(p + " " + "") == low && Quiet(low);
    QuietLacks(low, "/send");
    QuietLacks(low, "/transfer");
    QuietLacks(low, "/reset");
    QuietLacks(low, "/enable");
    QuietLacks(low, "/disable");
    forall i | 0 <= i <= |low|
      ensures !OccursAt(low, "ts=", i)
    {
      assert i + 3 <= |low| ==> low[i..i + 3][2] == low[i + 2];
    }
    assert Upper("POST") == "POST";
  }

  // ----- single paths -----

  lemma OneSegment(path: string, s: string)
    requires path == "/" + s && CleanSegment(s) && s != "v1"
    ensures PathSegments(path) == [s]
  {
    PrintedSegments([s]);
    assert Join([s], "/") == s;
  }

  lemma ImagePath(path: string)
    requires path == "/fs"
    ensures KindOfPath(path) == "image"
  {
    OneSegment(path, "fs");
    var segs := ["fs"];
    assert ClassifySegments(segs) == ClassOf("", "fs", segs[1..]);
  }

  lemma ImageRoute(path: string)
    requires path == "/fs/:idx"
    ensures KindOfPath(path) == "image"
  {
    var a, p := "/fs", ":idx";
    assert path == a + "/" + p;
    SilentPartsIgnored(a, p, "");
    ImagePath(a);
  }

  lemma GluedPath(path: string)
    requires path == "/fsx"
    ensures KindOfPath(path) == ""
  {
    OneSegment(path, "fsx");
    NotAService("fsx");
  }

  lemma NotAService(s: string)
    requires s == "fsx"
    ensures ClassifySegments([s]) == OTHER_CLASS
  {
    assert s !in NAMESPACES && s !in SERVICES && OrphanService(s).None?;
  }

  lemma SplitOne(s: string)
    requires '/' !in s
    ensures Split("/" + s, '/') == ["", s]
  {
    SplitConcat("", s, '/');
    SplitSingle(s, '/');
    assert "" + ['/'] + s == "/" + s;
  }

  /** Stripping "/fs/:idx" leaves "/fsx". */
  lemma GluedStrip(path: string)
    requires path == "/fs/:idx"
    ensures StripRoute(path) == "/fsx"
  {
    GluedSplit(path);
    GluedGlue(["", "fs", ":idx"]);
    StrippedIsGlued(path);
    JoinSplit(StripRoute(path), '/');
    assert Join(["", "fsx"], "/") == "" + "/" + Join(["fsx"], "/") by { assert ["", "fsx"][1..] == ["fsx"]; }
    assert "" + "/" + "fsx" == "/fsx";
  }

  lemma GluedSplit(path: string)
    requires path == "/fs/:idx"
    ensures Split(path, '/') == ["", "fs", ":idx"]
  {
    var s := ":idx";
    SplitConcat("/fs", s, '/');
    SplitOne("fs");
    SplitSingle(s, '/');
    assert "/fs" + ['/'] + s == path && "/" + "fs" == "/fs";
    assert ["", "fs"] + [s] == ["", "fs", ":idx"];
  }

  lemma GluedGlue(parts: seq<string>)
    requires parts == ["", "fs", ":idx"]
    ensures GluedParts(parts) == ["", "fsx"]
  {
    var p := ":idx";
    assert p[..4][1] == 'i' && p[..3] == ":id" && p[3..] == "x";
    assert !HasPrefix(p, ":_id") && HasPrefix(p, ":id");
    GlueThree("", "fs", p, ":_id");
    assert parts[1..] == ["fs", p];
    assert Glue(parts[0], parts[1..], ":_id") == parts;
    GlueThree("", "fs", p, ":id");
    assert "fs" + "x" == "fsx";
  }

  lemma GlueThree(a: string, b: string, c: string, name: string)
    requires !HasPrefix(b, name)
    ensures Glue(a, [b, c], name) == if HasPrefix(c, name) then [a, b + c[|name|..]] else [a, b, c]
  {
    assert [b, c][1..] == [c] && [c][1..] == [];
    assert Glue(b, [c], name) == if HasPrefix(c, name) then [b + c[|name|..]] else [b, c];
  }

  lemma EmptiedStrip(path: string)
    requires path == "/:id"
    ensures StripRoute(path) == ""
  {
    var p := ":id";
    assert p[1] != ":_id"[1];
    RemoveMiss(p, "", ":_id");
    RemoveMatch("", p);
    assert "/" + p + "" == path && p + "" == p && "/" + ":_id" == "/:_id" && "/" + p == "/:id";
  }

  // ----- a merchant that only the body names -----

  lemma {:induction false} NoneNonEmpty(xs: seq<string>)
    requires forall i :: 0 <= i < |xs| ==> xs[i] == ""
    ensures FirstNonEmpty(xs) == ""
    decreases |xs|
  {
    if xs != [] {
      NoneNonEmpty(xs[1..]);
      assert Trim("") == "";
    }
  }

  lemma ImageRouteIsAgreeable(r: Request)
    requires r.fullPath == "/fs"
    ensures AgreeableRoute(r)
  {
    SplitOne("fs");
    assert "/" + "fs" == r.fullPath;
    var parts := Split(r.fullPath, '/');
    assert parts == ["", "fs"] && parts[1..] == ["fs"];
    WholeHarmless("", ["fs"], ":_id");
    GlueWhole("", ["fs"], ":_id");
    assert [""] + Others(["fs"], ":_id") == parts;
    WholeHarmless("", ["fs"], ":id");
    ImagePath(r.fullPath);
    if StripRoute(r.fullPath) == "" { EmptiedRoute(r.fullPath); }
  }

  lemma BodyMerchantOnly(r: Request)
    requires r.merchantHeader == "" && r.tenantHeader == "" && r.switchHeader == ""
    requires !SkipUsageMerchant(r.bodyMerchant)
    ensures GateMerchant(r) == "" && SkipUsageMerchant("") && BilledElsewhere(r)
  {
    NoneNonEmpty([r.merchantHeader, r.tenantHeader, r.switchHeader, r.merchantHeader]);
    TrimFacts(r.bodyMerchant);
    assert Trim("") == "";
  }

  /** POST /fs whose merchant only the body names: it is billed although the gate was never asked. */
  lemma BodyMerchantUnasked(r: Request)
    requires r.method_ == "POST" && r.fullPath == "/fs" && r.urlPath == "/fs" && r.query == "" && r.respCode < 400
    requires r.merchantHeader == "" && r.tenantHeader == "" && r.switchHeader == ""
    requires !SkipUsageMerchant(r.bodyMerchant)
    ensures AgreeableRoute(r) && GateQuestion(r).None? && exists e :: Creates(r, e)
  {
    ImageRouteIsAgreeable(r);
    QuietNotSkipped(r.fullPath, r.urlPath);
    QuietCreates(r.fullPath);
    ImagePath(r.fullPath);
    BodyMerchantOnly(r);
    UnaskedIff(r);
  }

  // ----- a parameter that merely starts like an id -----

  /** POST /fs/:idx: the gate asks about an image; the meter reads "/fsx" and sees nothing to count. */
  lemma GluedRouteDisagrees(r: Request)
    requires r.method_ == "POST" && r.fullPath == "/fs/:idx" && r.query == "" && Quiet(r.urlPath)
    requires !SkipUsageMerchant(GateMerchant(r))
    ensures GateQuestion(r) == Option.Some((GateMerchant(r), "image")) && MeterEvent(r).None?
  {
    QuietNotSkipped(r.fullPath, r.urlPath);
    QuietCreates(r.fullPath);
    ImageRoute(r.fullPath);
    GluedStrip(r.fullPath);
    GluedPath(StripRoute(r.fullPath));
    NotMetered(r);
  }

  lemma NotMetered(r: Request)
    requires KindOfPath(MeterPath(r)) == ""
    ensures MeterEvent(r).None?
  {
  }

  /** "/:idv1/a" strips to "v1/a": something is glued to the start, and no segment is lost or gained. */
  lemma GluedVersion(path: string)
    requires path == "/:idv1/a"
    ensures !KeepsSegments(Split(path, '/')) && PathSegments(StripRoute(path)) == PathSegments(path)
  {
    GluedVersionSplit(path);
    var parts := ["", ":idv1", "a"];
    GluedVersionGlue(parts);
    StrippedIsGlued(path);
    ClassByParts(path);
    ClassByParts(StripRoute(path));
    GluedVersionRead(parts, ["v1", "a"]);
  }

  lemma GluedVersionSplit(path: string)
    requires path == "/:idv1/a"
    ensures Split(path, '/') == ["", ":idv1", "a"]
  {
    SplitOne(":idv1");
    SplitSingle("a", '/');
    SplitConcat("/:idv1", "a", '/');
    assert "/:idv1" + ['/'] + "a" == path && "/" + ":idv1" == "/:idv1";
    assert ["", ":idv1"] + ["a"] == ["", ":idv1", "a"];
  }

  lemma GlueMiddle(a: string, b: string, c: string, name: string)
    requires !HasPrefix(c, name)
    ensures Glue(a, [b, c], name) == if HasPrefix(b, name) then [a + b[|name|..], c] else [a, b, c]
    ensures Harmless(a, [b, c], name) <==>
      if HasPrefix(b, name) then b == name || Param(a + b[|name|..]) else true
  {
    assert [b, c][1..] == [c] && [c][1..] == [];
    assert Glue(b, [c], name) == [b, c] && Harmless(b, [c], name);
    if HasPrefix(b, name) { assert Harmless(a + b[|name|..], [c], name); }
  }

  lemma GluedVersionGlue(parts: seq<string>)
    requires parts == ["", ":idv1", "a"]
    ensures GluedParts(parts) == ["v1", "a"] && !KeepsSegments(parts)
  {
    var p := ":idv1";
    assert p[..4][1] == 'i' && p[..3] == ":id" && p[3..] == "v1";
    assert !HasPrefix(p, ":_id") && HasPrefix(p, ":id");
    assert parts[1..] == [p, "a"];
    GlueMiddle("", p, "a", ":_id");
    assert Glue(parts[0], parts[1..], ":_id") == parts;
    GlueMiddle("", p, "a", ":id");
    assert "" + "v1" == "v1";
  }

  lemma ReadTwo(x: string, y: string)
    requires Clear(x) && Clear(y) && Weight(y) > 0
    ensures PartSegments([x, y]) == if Weight(x) == 0 then [Lower(y)] else [Lower(x), Lower(y)]
  {
    ReadClear(x);
    ReadClear(y);
    ReadCons(y, []);
    ReadCons(x, [y]);
    assert [y] + [] == [y] && [x] + [y] == [x, y];
  }

  lemma GluedVersionRead(parts: seq<string>, glued: seq<string>)
    requires parts == ["", ":idv1", "a"] && glued == ["v1", "a"]
    ensures WithoutVersion(PartSegments(glued)) == WithoutVersion(PartSegments(parts))
  {
    ReadTwo(glued[0], glued[1]);
    ReadTwo(parts[1], parts[2]);
    ReadClear(parts[0]);
    ReadCons(parts[0], [parts[1], parts[2]]);
    assert [parts[0]] + [parts[1], parts[2]] == parts;
    assert Lower(glued[0]) == "v1" && Lower(parts[2]) == "a";
    assert [Lower(glued[0]), Lower(glued[1])][1..] == [Lower(glued[1])];
  }

  // ----- a route that is stripped away -----

  /** POST /:id at the address /fs: the route says nothing to the gate; the meter reads the address. */
  lemma EmptiedRouteDisagrees(r: Request)
    requires r.method_ == "POST" && r.fullPath == "/:id" && r.urlPath == "/fs" && r.query == "" && r.respCode < 400
    requires !SkipUsageMerchant(GateMerchant(r))
    ensures GateQuestion(r).None? && exists e :: Creates(r, e)
  {
    EmptiedStrip(r.fullPath);
    QuietNotSkipped(r.fullPath, r.urlPath);
    QuietCreates(r.urlPath);
    ImagePath(r.urlPath);
    EmptiedRouteIff(r);
  }

  // ----- a service that is metered by accident -----

  /** A module of the auth service is counted because it is named like a metered resource. */
  lemma AuthModuleIsMetered(path: string)
    requires path == "/auth/order"
    ensures ClassifyPath(path).service == "auth" && KindOfPath(path) == "order"
  {
    var segs := ["auth", "order"];
    PrintedSegments(segs);
    assert "/" + Join(segs, "/") == path;
    assert segs[1..] == ["order"];
    AloneIsPicked("auth", "order");
    assert ClassifySegments(segs) == ClassOf("", "auth", ["order"]);
  }
}
