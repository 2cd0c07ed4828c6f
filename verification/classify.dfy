/** From a request path to its service and module (oplog_classify.go, lines 9-73, 201-285 and 305-362).
    Chinese labels are left out. */
module Classify {
  import opened Text

  datatype PathClass = PathClass(ns: string, service: string, module_: string, resource: string)

  const OTHER_CLASS := PathClass("", "", "", "other")

  const NAMESPACES: set<string> := {"hlj", "system", "gyb"}

  const SERVICES: set<string> := {
    "client", "member", "order", "product", "store", "finance", "device", "feedback", "active", "scm",
    "transport", "merchant", "auth", "fs", "pay", "data", "message"
  }

  const PLATFORMS: set<string> := {"mini", "pos", "pad", "rpc", "open", "common", "admin"}

  /** Modules that appear without a service segment, with the service they belong to. Each keeps its own
      name as the module. */
  function OrphanService(module_: string): Option<string> {
    if module_ in {"password"} then Some("auth")
    else if module_ in {"products", "property", "menu"} then Some("product")
    else if module_ in {"material", "supplier", "recipe", "inventory", "purchase", "inbound", "outbound",
                        "process", "stocktake"} then Some("scm")
    else if module_ in {"campaign", "coupon", "ticket", "record"} then Some("active")
    else if module_ in {"qrcode"} then Some("store")
    else None
  }

  // ----- segments -----

  /** The path without its query. */
  function Cut(path: string): string {
    Split(path, '?')[0]
  }

  /** What one part of the path contributes: nothing when blank or a parameter. */
  function Segment(part: string): seq<string> {
    var p := Trim(part);
    if p == "" || p[0] == ':' then [] else [p]
  }

  function Cleaned(parts: seq<string>): seq<string> {
    if parts == [] then [] else Segment(parts[0]) + Cleaned(parts[1..])
  }

  function WithoutVersion(segs: seq<string>): seq<string> {
    if segs != [] && segs[0] == "v1" then segs[1..] else segs
  }

  function PathSegments(path: string): seq<string> {
    WithoutVersion(Cleaned(Split(Lower(Cut(path)), '/')))
  }

  lemma {:induction false} CleanedSnoc(parts: seq<string>, p: string)
    ensures Cleaned(parts + [p]) == Cleaned(parts) + Segment(p)
    decreases |parts|
  {
    if parts == [] {
      assert parts + [p] == [p] && Cleaned([p][1..]) == [];
    } else {
      assert (parts + [p])[1..] == parts[1..] + [p];
      CleanedSnoc(parts[1..], p);
    }
  }

  method ComputePathSegments(path: string) returns (out: seq<string>)
    ensures out == PathSegments(path)
  {
    var raw := Split(Lower(Split(path, '?')[0]), '/');
    out := [];
    for i := 0 to |raw|
      invariant out == Cleaned(raw[..i])
    {
      var part := Trim(raw[i]);
      assert raw[..i + 1] == raw[..i] + [raw[i]];
      CleanedSnoc(raw[..i], raw[i]);
      if part == "" || HasPrefix(part, ":") {
        continue;
      }
      out := out + [part];
    }
    assert raw[..|raw|] == raw;
    if |out| > 0 && out[0] == "v1" {
      out := out[1..];
    }
  }

  // ----- modules -----

  function AliasModule(service: string, module_: string): string {
    if module_ == "mp-dist" then "mp"
    else if module_ == "notify" && service == "client" then "notification"
    else if module_ == "address" && service == "member" then "addresses"
    else module_
  }

  /** The first segment that is not a platform. */
  function FirstModule(rest: seq<string>): Option<string> {
    if rest == [] then None else if rest[0] in PLATFORMS then FirstModule(rest[1..]) else Some(rest[0])
  }

  /** That segment, or the first platform when there is nothing else. */
  function PickModule(service: string, rest: seq<string>): string {
    match FirstModule(rest)
    case Some(m) => AliasModule(service, m)
    case None => if rest == [] then "" else AliasModule(service, rest[0])
  }

  method ComputePickModule(service: string, rest: seq<string>) returns (r: string)
    ensures r == PickModule(service, rest)
  {
    var skipped := "";
    for i := 0 to |rest|
      invariant FirstModule(rest) == FirstModule(rest[i..])
      invariant i == 0 ==> skipped == ""
      invariant i > 0 ==> skipped == rest[0] && rest[0] in PLATFORMS
    {
      var part := rest[i];
      assert rest[i..][0] == part && rest[i..][1..] == rest[i + 1..];
      if part in PLATFORMS {
        if skipped == "" {
          skipped := part;
        }
        continue;
      }
      return AliasModule(service, part);
    }
    if skipped != "" {
      return AliasModule(service, skipped);
    }
    return "";
  }

  // ----- the class -----

  /** The module after the file service's own rule. */
  function FinalModule(service: string, rest: seq<string>): string {
    var m := PickModule(service, rest);
    if service == "fs" && (m == "" || m == "client" || "image" in rest) then "image" else m
  }

  function LegacyResource(service: string, module_: string): string {
    if service == "fs" then "image"
    else if service == "member" then
      (if module_ == "addresses" || module_ == "address" then "member_address"
       else if module_ == "level" then "member_level" else "member")
    else if service == "auth" then
      (if module_ == "account" then "admin_account" else if module_ == "" then "auth" else module_)
    else if service == "active" then "campaign"
    else service
  }

  function ClassOf(ns: string, service: string, rest: seq<string>): PathClass {
    var m := FinalModule(service, rest);
    PathClass(ns, service, m, LegacyResource(service, m))
  }

  /** The class of the segments that follow the namespace. */
  function ClassifyService(ns: string, segs: seq<string>): PathClass {
    if segs == [] then OTHER_CLASS
    else if segs[0] in SERVICES then ClassOf(ns, segs[0], segs[1..])
    else match OrphanService(segs[0])
      case None => OTHER_CLASS
      case Some(service) => ClassOf(ns, service, segs)
  }

  function ClassifySegments(segs: seq<string>): PathClass {
    if segs != [] && segs[0] in NAMESPACES then ClassifyService(segs[0], segs[1..]) else ClassifyService("", segs)
  }

  function ClassifyPath(path: string): PathClass {
    ClassifySegments(PathSegments(path))
  }

  // ----- clean segments -----

  /** A segment as it comes out of a path: lower case, trimmed, no separators, no parameter. */
  predicate CleanSegment(s: string) {
    && s != "" && s[0] != ':' && Trimmed(s)
    && forall i | 0 <= i < |s| :: s[i] != '/' && s[i] != '?' && !('A' <= s[i] <= 'Z')
  }

  lemma CleanFacts(s: string)
    requires CleanSegment(s)
    ensures Lower(s) == s && Segment(s) == [s] && '/' !in s && '?' !in s
  {
    TrimFacts(s);
  }

  lemma SegmentIsClean(part: string)
    requires forall i :: 0 <= i < |part| ==> part[i] != '/' && part[i] != '?' && !('A' <= part[i] <= 'Z')
    ensures forall s :: s in Segment(part) ==> CleanSegment(s)
  {
    TrimFacts(part);
    var p := Trim(part);
    forall i | 0 <= i < |p|
      ensures p[i] != '/' && p[i] != '?' && !('A' <= p[i] <= 'Z')
    {
      assert p[i] in part;
    }
  }

  lemma {:induction false} CleanedIsClean(parts: seq<string>)
    requires forall j, i :: 0 <= j < |parts| && 0 <= i < |parts[j]| ==>
      parts[j][i] != '/' && parts[j][i] != '?' && !('A' <= parts[j][i] <= 'Z')
    ensures forall s :: s in Cleaned(parts) ==> CleanSegment(s)
    decreases |parts|
  {
    if parts != [] {
      SegmentIsClean(parts[0]);
      CleanedIsClean(parts[1..]);
    }
  }

  lemma {:induction false} SplitChars(s: string, sep: char)
    ensures forall j, i :: 0 <= j < |Split(s, sep)| && 0 <= i < |Split(s, sep)[j]| ==> Split(s, sep)[j][i] in s
    decreases |s|
  {
    if s != "" {
      SplitChars(s[1..], sep);
      var rest := Split(s[1..], sep);
      forall j, i | 0 <= j < |Split(s, sep)| && 0 <= i < |Split(s, sep)[j]|
        ensures Split(s, sep)[j][i] in s
      {
        if s[0] == sep {
          assert Split(s, sep)[j] == rest[j - 1];
        } else if j == 0 {
          assert Split(s, sep)[0] == [s[0]] + rest[0];
        } else {
          assert Split(s, sep)[j] == rest[j];
        }
      }
    }
  }

  lemma SegmentsAreClean(path: string)
    ensures forall s :: s in PathSegments(path) ==> CleanSegment(s)
  {
    var low := Lower(Cut(path));
    var parts := Split(low, '/');
    SplitSingle(path, '?');
    SplitSingle(low, '/');
    SplitChars(low, '/');
    forall j, i | 0 <= j < |parts| && 0 <= i < |parts[j]|
      ensures parts[j][i] != '/' && parts[j][i] != '?' && !('A' <= parts[j][i] <= 'Z')
    {
      var c := parts[j][i];
      var n :| 0 <= n < |low| && low[n] == c;
      assert low[n] == LowerChar(Cut(path)[n]) && Cut(path)[n] in Cut(path);
    }
    CleanedIsClean(parts);
  }

  // ----- printing a class -----

  function Optional(s: string): seq<string> {
    if s == "" then [] else [s]
  }

  /** /v1/{namespace}/{service}/{module}, without the parts that are empty. */
  function PrintClass(c: PathClass): string {
    "/" + Join(["v1"] + Optional(c.ns) + [c.service] + Optional(c.module_), "/")
  }

  lemma {:induction false} CleanedOfClean(segs: seq<string>)
    requires forall s :: s in segs ==> CleanSegment(s)
    ensures Cleaned(segs) == segs
    decreases |segs|
  {
    if segs != [] {
      CleanFacts(segs[0]);
      CleanedOfClean(segs[1..]);
    }
  }

  lemma {:induction false} JoinClean(segs: seq<string>)
    requires forall s :: s in segs ==> CleanSegment(s)
    ensures Lower(Join(segs, "/")) == Join(segs, "/") && '?' !in Join(segs, "/")
    decreases |segs|
  {
    if |segs| > 0 {
      CleanFacts(segs[0]);
      JoinClean(segs[1..]);
      if |segs| > 1 {
        LowerConcat(segs[0] + "/", Join(segs[1..], "/"));
        LowerConcat(segs[0], "/");
      }
    }
  }

  /** Clean segments survive printing and reading. */
  lemma PrintedSegments(segs: seq<string>)
    requires segs != [] && forall s :: s in segs ==> CleanSegment(s)
    ensures PathSegments("/" + Join(segs, "/")) == WithoutVersion(segs)
  {
    var body := Join(segs, "/");
    var path := "/" + body;
    JoinClean(segs);
    LowerConcat("/", body);
    SplitSingle(path, '?');
    assert Cut(path) == path && Lower(path) == path;
    forall i | 0 <= i < |segs|
      ensures '/' !in segs[i]
    {
      CleanFacts(segs[i]);
    }
    SplitJoin(segs, '/');
    SplitConcat("", body, '/');
    assert "" + ['/'] + body == path;
    assert Split(path, '/') == [""] + segs;
    assert ([""] + segs)[1..] == segs;
    CleanedOfClean(segs);
    assert Cleaned([""] + segs) == segs;
  }

  lemma ServiceFacts(s: string)
    requires s in SERVICES
    ensures s !in NAMESPACES && CleanSegment(s)
  {
  }

  lemma NamespaceFacts(s: string)
    requires s in NAMESPACES
    ensures CleanSegment(s)
  {
  }

  lemma OrphanFacts(s: string)
    requires OrphanService(s).Some?
    ensures OrphanService(s).value in SERVICES
  {
  }

  lemma {:induction false} FirstModuleMember(rest: seq<string>)
    ensures FirstModule(rest).Some? ==> FirstModule(rest).value in rest
    decreases |rest|
  {
    if rest != [] {
      FirstModuleMember(rest[1..]);
    }
  }

  /** The module of a class is clean and is picked again when it stands alone. */
  lemma ModuleStable(service: string, rest: seq<string>)
    requires forall s :: s in rest ==> CleanSegment(s)
    ensures var m := FinalModule(service, rest);
      (m == "" || CleanSegment(m)) && FinalModule(service, Optional(m)) == m
  {
    FirstModuleMember(rest);
    var m := FinalModule(service, rest);
    var picked := PickModule(service, rest);
    AliasTwice(service, picked);
    assert picked == "" || (AliasModule(service, picked) == picked && CleanSegment(picked)) by {
      if rest != [] {
        var x := if FirstModule(rest).Some? then FirstModule(rest).value else rest[0];
        assert picked == AliasModule(service, x);
        AliasTwice(service, x);
      }
    }
    AloneIsPicked(service, m);
  }

  lemma AliasTwice(service: string, x: string)
    ensures AliasModule(service, AliasModule(service, x)) == AliasModule(service, x)
    ensures CleanSegment(x) ==> CleanSegment(AliasModule(service, x))
  {
  }

  lemma AloneIsPicked(service: string, m: string)
    ensures PickModule(service, Optional(m)) == if m == "" then "" else AliasModule(service, m)
  {
    if m != "" {
      var rest := Optional(m);
      assert rest[0] == m && rest[1..] == [];
      assert FirstModule(rest) == if m in PLATFORMS then None else Some(m);
    }
  }

  /** The canonical form: printing the class of a path and classifying the print gives the class back. */
  lemma CanonicalForm(path: string)
    requires ClassifyPath(path).service != ""
    ensures ClassifyPath(PrintClass(ClassifyPath(path))) == ClassifyPath(path)
  {
    var c, segs := ClassifyPath(path), PathSegments(path);
    SegmentsAreClean(path);
    var ns := if segs != [] && segs[0] in NAMESPACES then segs[0] else "";
    var body := if ns == "" then segs else segs[1..];
    assert c == ClassifyService(ns, body);
    var rest := if body[0] in SERVICES then body[1..] else body;
    if body[0] !in SERVICES { OrphanFacts(body[0]); }
    assert c == ClassOf(ns, c.service, rest);
    ServiceFacts(c.service);
    ModuleStable(c.service, rest);
    if ns != "" { NamespaceFacts(ns); }
    ClassifyPrinted(c);
  }

  lemma ClassifyPrinted(c: PathClass)
    requires c.ns == "" || (c.ns in NAMESPACES && CleanSegment(c.ns))
    requires c.service in SERVICES && c.service !in NAMESPACES && CleanSegment(c.service)
    requires c.module_ == "" || CleanSegment(c.module_)
    requires c == ClassOf(c.ns, c.service, Optional(c.module_))
    ensures ClassifyPath(PrintClass(c)) == c
  {
    var tail := [c.service] + Optional(c.module_);
    var segs := ["v1"] + Optional(c.ns) + tail;
    assert segs == ["v1"] + Optional(c.ns) + [c.service] + Optional(c.module_);
    assert CleanSegment("v1");
    PrintedSegments(segs);
    assert segs[1..] == Optional(c.ns) + tail;
    assert tail[1..] == Optional(c.module_);
    if c.ns == "" {
      assert segs[1..] == tail;
    } else {
      assert segs[1..][1..] == tail;
    }
  }

  // ----- parts that do not matter -----

  /** The parts between slashes that contribute, up to the query. */
  function PartSegments(parts: seq<string>): seq<string> {
    if parts == [] then []
    else if '?' in parts[0] then Segment(Lower(Cut(parts[0])))
    else Segment(Lower(parts[0])) + PartSegments(parts[1..])
  }

  lemma {:induction false} CutConcat(a: string, b: string)
    ensures Cut(a + b) == if '?' in a then Cut(a) else a + Cut(b)
    decreases |a|
  {
    if a == "" {
      assert a + b == b;
    } else {
      CutConcat(a[1..], b);
      assert (a + b)[0] == a[0] && (a + b)[1..] == a[1..] + b;
      assert a == [a[0]] + a[1..];
    }
  }

  lemma {:induction false} LowerKeepsSlash(s: string)
    ensures '/' in Lower(s) <==> '/' in s
  {
    if '/' in s {
      var i :| 0 <= i < |s| && s[i] == '/';
      assert Lower(s)[i] == '/';
    }
    if '/' in Lower(s) {
      var i :| 0 <= i < |s| && Lower(s)[i] == '/';
      assert s[i] == '/';
    }
  }

  lemma CutNoSlash(s: string)
    requires '/' !in s
    ensures '/' !in Cut(s)
  {
    SplitChars(s, '?');
    assert forall i :: 0 <= i < |Cut(s)| ==> Split(s, '?')[0][i] in s;
  }

  lemma CleanedSingle(p: string)
    requires '/' !in p
    ensures Cleaned(Split(Lower(p), '/')) == Segment(Lower(p))
  {
    LowerKeepsSlash(p);
    SplitSingle(Lower(p), '/');
    assert Cleaned([Lower(p)][1..]) == [];
  }

  /** The segments of a path, read off its parts one by one. */
  lemma {:induction false} SegmentsByParts(parts: seq<string>)
    requires parts != [] && forall i :: 0 <= i < |parts| ==> '/' !in parts[i]
    ensures Cleaned(Split(Lower(Cut(Join(parts, "/"))), '/')) == PartSegments(parts)
    decreases |parts|
  {
    var p, rest := parts[0], Join(parts[1..], "/");
    SplitSingle(p, '?');
    if |parts| == 1 {
      CutNoSlash(p);
      CleanedSingle(Cut(p));
      assert PartSegments(parts[1..]) == [];
      assert Cut(p) == p || '?' in p;
    } else {
      CutConcat(p + "/", rest);
      CutConcat(p, "/");
      SplitSingle("/", '?');
      assert '?' in p + "/" <==> '?' in p;
      if '?' in p {
        CutNoSlash(p);
        CleanedSingle(Cut(p));
      } else {
        assert Join(parts, "/") == p + "/" + rest;
        assert Cut(Join(parts, "/")) == p + "/" + Cut(rest);
        SegmentsByParts(parts[1..]);
        SplitLowered(p, Cut(rest));
      }
    }
  }

  lemma SplitLowered(p: string, rest: string)
    requires '/' !in p
    ensures Cleaned(Split(Lower(p + "/" + rest), '/')) == Segment(Lower(p)) + Cleaned(Split(Lower(rest), '/'))
  {
    LowerConcat(p + "/", rest);
    LowerConcat(p, "/");
    assert Lower("/") == ['/'];
    SplitConcat(Lower(p), Lower(rest), '/');
    LowerKeepsSlash(p);
    SplitSingle(Lower(p), '/');
    var low := Split(Lower(rest), '/');
    assert ([Lower(p)] + low)[1..] == low;
  }

  /** A part that contributes nothing: empty, blank or a parameter, and without a query of its own. */
  predicate SilentPart(p: string) {
    '/' !in p && '?' !in p && Segment(Lower(p)) == []
  }

  lemma ParameterIsSilent(p: string)
    requires '/' !in p && '?' !in p && (p == "" || p[0] == ':')
    ensures SilentPart(p)
  {
    if p != "" {
      var low := Lower(p);
      assert low[0] == ':';
      TrimFacts(low);
      TrimKeepsFirst(low);
    }
  }

  lemma {:induction false} TrimKeepsFirst(s: string)
    requires s != "" && !IsSpace(s[0])
    ensures Trim(s) != "" && Trim(s)[0] == s[0]
    decreases |s|
  {
    assert TrimLeft(s) == s;
    if IsSpace(s[|s| - 1]) {
      var t := s[..|s| - 1];
      assert t != "" && t[0] == s[0];
      TrimKeepsFirst(t);
      assert TrimLeft(t) == t;
    }
  }

  lemma {:induction false} PartSegmentsInsert(xs: seq<string>, p: string, ys: seq<string>)
    requires SilentPart(p)
    ensures PartSegments(xs + [p] + ys) == PartSegments(xs + ys)
    decreases |xs|
  {
    if xs == [] {
      assert xs + [p] + ys == [p] + ys && xs + ys == ys;
      assert ([p] + ys)[1..] == ys;
    } else {
      assert (xs + [p] + ys)[1..] == xs[1..] + [p] + ys && (xs + ys)[1..] == xs[1..] + ys;
      PartSegmentsInsert(xs[1..], p, ys);
    }
  }

  /** The class is decided by the parts. */
  lemma ClassByParts(path: string)
    ensures PathSegments(path) == WithoutVersion(PartSegments(Split(path, '/')))
  {
    SplitSingle(path, '/');
    JoinSplit(path, '/');
    SegmentsByParts(Split(path, '/'));
  }

  /** An empty or ":param" part put in anywhere at a slash, or at the end, never changes the class. */
  lemma SilentPartsIgnored(a: string, p: string, b: string)
    requires '/' !in p && '?' !in p && (p == "" || p[0] == ':')
    ensures ClassifyPath(a + "/" + p + "/" + b) == ClassifyPath(a + "/" + b)
    ensures ClassifyPath(a + "/" + p) == ClassifyPath(a)
  {
    ParameterIsSilent(p);
    ClassByParts(a + "/" + p + "/" + b);
    ClassByParts(a + "/" + b);
    ClassByParts(a + "/" + p);
    ClassByParts(a);
    SplitSingle(p, '/');
    var xs, ys := Split(a, '/'), Split(b, '/');
    SplitConcat(a + "/" + p, b, '/');
    SplitConcat(a, p, '/');
    SplitConcat(a, b, '/');
    PartSegmentsInsert(xs, p, ys);
    PartSegmentsInsert(xs, p, []);
    assert xs + [p] + [] == xs + [p] && xs + [] == xs;
  }

  /** A query never changes the class. */
  lemma QueryIgnored(path: string, query: string)
    ensures ClassifyPath(path + "?" + query) == ClassifyPath(path)
  {
    SplitConcat(path, query, '?');
  }
}
