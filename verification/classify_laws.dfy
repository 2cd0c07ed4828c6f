/** What the class of a path is, said from its segments: the optional namespace, the service or an orphan
    module, and the module behind any platform segments (oplog_classify.go, lines 17-73, 203-285 and
    322-353). */
module ClassifyLaws {
  import opened Text
  import opened Classify

  predicate Platform(s: string) {
    s == "mini" || s == "pos" || s == "pad" || s == "rpc" || s == "open" || s == "common" || s == "admin"
  }

  predicate Namespace(s: string) {
    s == "hlj" || s == "system" || s == "gyb"
  }

  predicate Service(s: string) {
    || s == "client" || s == "member" || s == "order" || s == "product" || s == "store" || s == "finance"
    || s == "device" || s == "feedback" || s == "active" || s == "scm" || s == "transport" || s == "merchant"
    || s == "auth" || s == "fs" || s == "pay" || s == "data" || s == "message"
  }

  lemma Tables(s: string)
    ensures (s in PLATFORMS <==> Platform(s)) && (s in NAMESPACES <==> Namespace(s)) && (s in SERVICES <==> Service(s))
  {
  }

  // ----- namespaces, services, orphans -----

  /** A namespace in front is kept in the class and changes nothing else. */
  lemma NamespaceOnly(ns: string, segs: seq<string>)
    requires Namespace(ns) && (segs == [] || !Namespace(segs[0]))
    ensures var c, d := ClassifySegments([ns] + segs), ClassifySegments(segs);
      c == if d == OTHER_CLASS then OTHER_CLASS else d.(ns := ns)
  {
    Tables(ns);
    if segs != [] { Tables(segs[0]); }
    assert ([ns] + segs)[1..] == segs;
  }

  /** The class of a path is that of another service exactly when its first segment, after the namespace, is
      that service or one of its orphan modules. */
  lemma ServiceIff(segs: seq<string>)
    requires segs == [] || !Namespace(segs[0])
    ensures var c := ClassifySegments(segs);
      && c.ns == ""
      && (c.service != "" <==> segs != [] && (Service(segs[0]) || OrphanService(segs[0]).Some?))
      && (segs != [] && Service(segs[0]) ==> c.service == segs[0])
      && (segs != [] && !Service(segs[0]) && OrphanService(segs[0]).Some? ==> c.service == OrphanService(segs[0]).value)
      && (c.service == "" ==> c.module_ == "" && c.resource == "other")
  {
    if segs != [] {
      Tables(segs[0]);
      assert "" !in SERVICES;
      if OrphanService(segs[0]).Some? { OrphanFacts(segs[0]); }
    }
  }

  predicate ScmModule(s: string) {
    || s == "material" || s == "supplier" || s == "recipe" || s == "inventory" || s == "purchase"
    || s == "inbound" || s == "outbound" || s == "process" || s == "stocktake"
  }

  /** The modules that appear without their service. */
  lemma OrphanTable(o: string)
    ensures OrphanService(o) ==
      if o == "password" then Some("auth")
      else if o == "products" || o == "property" || o == "menu" then Some("product")
      else if ScmModule(o) then Some("scm")
      else if o == "campaign" || o == "coupon" || o == "ticket" || o == "record" then Some("active")
      else if o == "qrcode" then Some("store")
      else None
  {
  }

  lemma OrphanIsNoNamespace(o: string)
    requires OrphanService(o).Some?
    ensures o !in NAMESPACES && o !in PLATFORMS
  {
  }

  lemma OrphanIsNoService(o: string)
    requires OrphanService(o).Some?
    ensures o !in SERVICES
  {
  }

  lemma OrphanHasNoAlias(o: string)
    requires OrphanService(o).Some?
    ensures AliasModule(OrphanService(o).value, o) == o && OrphanService(o).value != "fs"
  {
  }

  /** An orphan module brings its service and stays the module, whatever follows. */
  lemma OrphanClass(o: string, rest: seq<string>)
    requires OrphanService(o).Some?
    ensures var c := ClassifySegments([o] + rest);
      c.ns == "" && c.service == OrphanService(o).value && c.module_ == o
  {
    var segs := [o] + rest;
    OrphanIsNoNamespace(o);
    OrphanIsNoService(o);
    OrphanHasNoAlias(o);
    assert segs[0] == o && FirstModule(segs) == Some(o);
  }

  // ----- modules -----

  /** The first segment after the service that is no platform is the module, but for a few other names. */
  lemma ModuleBehindPlatforms(service: string, front: seq<string>, m: string, rest: seq<string>)
    requires forall i :: 0 <= i < |front| ==> Platform(front[i])
    requires !Platform(m)
    ensures PickModule(service, front + [m] + rest) ==
      if m == "mp-dist" then "mp"
      else if m == "notify" && service == "client" then "notification"
      else if m == "address" && service == "member" then "addresses"
      else m
  {
    FirstBehindPlatforms(front, m, rest);
  }

  lemma {:induction false} FirstBehindPlatforms(front: seq<string>, m: string, rest: seq<string>)
    requires forall i :: 0 <= i < |front| ==> Platform(front[i])
    requires !Platform(m)
    ensures FirstModule(front + [m] + rest) == Some(m)
    decreases |front|
  {
    var all := front + [m] + rest;
    Tables(all[0]);
    if front != [] {
      assert all[1..] == front[1..] + [m] + rest;
      FirstBehindPlatforms(front[1..], m, rest);
    }
  }

  /** With nothing but platforms the first of them is the module. */
  lemma {:induction false} OnlyPlatforms(service: string, front: seq<string>)
    requires forall i :: 0 <= i < |front| ==> Platform(front[i])
    ensures PickModule(service, front) == if front == [] then "" else front[0]
  {
    NoModule(front);
    if front != [] { Tables(front[0]); }
  }

  lemma {:induction false} NoModule(front: seq<string>)
    requires forall i :: 0 <= i < |front| ==> Platform(front[i])
    ensures FirstModule(front) == None
    decreases |front|
  {
    if front != [] {
      Tables(front[0]);
      NoModule(front[1..]);
    }
  }

  lemma {:induction false} FirstWithout(xs: seq<string>, p: string, ys: seq<string>)
    requires Platform(p)
    ensures FirstModule(xs + [p] + ys) == FirstModule(xs + ys)
    decreases |xs|
  {
    Tables(p);
    if xs == [] {
      assert xs + [p] + ys == [p] + ys && xs + ys == ys;
      assert ([p] + ys)[1..] == ys;
    } else {
      assert (xs + [p] + ys)[1..] == xs[1..] + [p] + ys && (xs + ys)[1..] == xs[1..] + ys;
      FirstWithout(xs[1..], p, ys);
    }
  }

  /** A platform segment anywhere after the service never changes the class when some module is there. */
  lemma PlatformsIgnored(ns: string, service: string, xs: seq<string>, p: string, ys: seq<string>)
    requires Platform(p) && exists m :: m in xs + ys && !Platform(m)
    ensures ClassOf(ns, service, xs + [p] + ys) == ClassOf(ns, service, xs + ys)
  {
    FirstWithout(xs, p, ys);
    if FirstModule(xs + ys).None? { AllPlatforms(xs + ys); }
    assert "image" in xs + [p] + ys <==> "image" in xs + ys;
  }

  lemma {:induction false} AllPlatforms(rest: seq<string>)
    requires FirstModule(rest) == None
    ensures forall m :: m in rest ==> Platform(m)
    decreases |rest|
  {
    if rest != [] {
      Tables(rest[0]);
      AllPlatforms(rest[1..]);
      assert forall m :: m in rest ==> m == rest[0] || m in rest[1..];
    }
  }

  /** The same on paths: two whose segments differ by such a platform have one class. */
  lemma PlatformsInPaths(path: string, other: string, ns: seq<string>, service: string, xs: seq<string>, p: string,
                         ys: seq<string>)
    requires |ns| <= 1 && (ns != [] ==> Namespace(ns[0])) && Service(service)
    requires Platform(p) && exists m :: m in xs + ys && !Platform(m)
    requires PathSegments(path) == ns + [service] + (xs + [p] + ys)
    requires PathSegments(other) == ns + [service] + (xs + ys)
    ensures ClassifyPath(path) == ClassifyPath(other)
  {
    var n := if ns == [] then "" else ns[0];
    ServiceSegments(ns, service, xs + [p] + ys);
    ServiceSegments(ns, service, xs + ys);
    PlatformsIgnored(n, service, xs, p, ys);
  }

  lemma ServiceSegments(ns: seq<string>, service: string, rest: seq<string>)
    requires |ns| <= 1 && (ns != [] ==> Namespace(ns[0])) && Service(service)
    ensures ClassifySegments(ns + [service] + rest) == ClassOf(if ns == [] then "" else ns[0], service, rest)
  {
    Tables(service);
    ServiceFacts(service);
    ServiceOnly(service, rest);
    if ns == [] {
      assert ns + [service] + rest == [service] + rest;
    } else {
      Tables(ns[0]);
      assert ns + [service] + rest == [ns[0]] + ([service] + rest);
      NamespaceOnly(ns[0], [service] + rest);
    }
  }

  lemma ServiceOnly(service: string, rest: seq<string>)
    requires service in SERVICES && service !in NAMESPACES
    ensures ClassifySegments([service] + rest) == ClassOf("", service, rest)
    ensures !Namespace(service)
  {
    Tables(service);
    assert ([service] + rest)[0] == service && ([service] + rest)[1..] == rest;
  }

  // ----- resources -----

  /** The file service knows one resource, and images as its module wherever they are named, by default, and
      for the client platform. */
  lemma FileClass(ns: string, rest: seq<string>)
    ensures var c := ClassOf(ns, "fs", rest);
      && c.resource == "image"
      && ("image" in rest || rest == [] || PickModule("fs", rest) == "client" ==> c.module_ == "image")
  {
    assert PickModule("fs", []) == "";
  }

  /** The resource a service and module stand for. */
  lemma ResourceTable(ns: string, service: string, rest: seq<string>)
    requires service != "fs"
    ensures var c := ClassOf(ns, service, rest);
      && c.ns == ns && c.service == service && c.module_ == PickModule(service, rest)
      && c.resource ==
           if service == "member" && (c.module_ == "addresses" || c.module_ == "address") then "member_address"
           else if service == "member" && c.module_ == "level" then "member_level"
           else if service == "auth" && c.module_ == "account" then "admin_account"
           else if service == "auth" && c.module_ != "" then c.module_
           else if service == "active" then "campaign"
           else service
  {
  }
}
