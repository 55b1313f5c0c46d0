// The top level of the olaf route compiler: the matches of a route, its
// subroutes, the priority order of the routes, and the whole build.
module OlafBuilder {
  import opened Wrappers
  import opened OlafEntity
  import opened OlafFragments
  import opened OlafPlugins
  import opened OlafProxy

  /** A list of JSON objects as one JSON value. */
  function Objects(ds: seq<Dict>): (v: Value)
    ensures v.List? && |v.items| == |ds|
    ensures forall i | 0 <= i < |ds| :: v.items[i] == Object(ds[i])
  {
    List(seq(|ds|, i requires 0 <= i < |ds| => Object(ds[i])))
  }

  // ------------------------------------------------------------ route matches

  /**
   * The paths of a matcher, told apart: the normal paths in order, and the
   * regexp paths as a map from pattern to name together with the patterns in
   * the order they first appear.
   */
  datatype PathSplit = PathSplit(normal: seq<string>, patterns: seq<string>, names: map<string, string>)

  function SplitPaths(o: Oracles, paths: seq<string>): (r: PathSplit)
    ensures forall pat :: pat in r.names <==> pat in r.patterns
    decreases |paths|
  {
    if paths == [] then PathSplit([], [], map[])
    else
      var r := SplitPaths(o, paths[..|paths| - 1]);
      var p := paths[|paths| - 1];
      match o.pathRegexp(p)
      case None => r.(normal := r.normal + [p])
      case Some(np) =>
        var (name, pattern) := np;
        r.(patterns := if pattern in r.names then r.patterns else r.patterns + [pattern],
           names := r.names[pattern := name])
  }

  /** The normal paths are exactly the paths that are not regexp paths, each as often as in the input. */
  lemma {:induction false} SplitPathsNormal(o: Oracles, paths: seq<string>)
    ensures var r := SplitPaths(o, paths);
      (forall p | p in r.normal :: o.pathRegexp(p).None?)
      && forall p | o.pathRegexp(p).None? :: multiset(r.normal)[p] == multiset(paths)[p]
    decreases |paths|
  {
    if paths != [] {
      var init := paths[..|paths| - 1];
      SplitPathsNormal(o, init);
      assert paths == init + [paths[|paths| - 1]];
    }
  }

  ghost predicate Distinct(s: seq<string>) {
    forall i, j | 0 <= i < j < |s| :: s[i] != s[j]
  }

  ghost predicate IsRegexpPath(o: Oracles, p: string, pattern: string) {
    o.pathRegexp(p).Some? && o.pathRegexp(p).value.1 == pattern
  }

  /** Every regexp pattern is listed once. */
  lemma {:induction false} SplitPathsDistinct(o: Oracles, paths: seq<string>)
    ensures Distinct(SplitPaths(o, paths).patterns)
    decreases |paths|
  {
    if paths != [] {
      SplitPathsDistinct(o, paths[..|paths| - 1]);
    }
  }

  /** A pattern is listed exactly when some path is a regexp path with that pattern. */
  lemma {:induction false} SplitPathsPatterns(o: Oracles, paths: seq<string>)
    ensures forall pat :: pat in SplitPaths(o, paths).names <==> exists i | 0 <= i < |paths| :: IsRegexpPath(o, paths[i], pat)
    decreases |paths|
  {
    if paths != [] {
      var init := paths[..|paths| - 1];
      SplitPathsPatterns(o, init);
      assert forall i | 0 <= i < |init| :: init[i] == paths[i];
    }
  }

  /** A pattern is named by the last path that has it: a later name overwrites an earlier one. */
  lemma {:induction false} SplitPathsLastName(o: Oracles, paths: seq<string>, pat: string)
    requires pat in SplitPaths(o, paths).names
    ensures exists i | 0 <= i < |paths| ::
      (o.pathRegexp(paths[i]) == Some((SplitPaths(o, paths).names[pat], pat))
      && forall j | i < j < |paths| :: !IsRegexpPath(o, paths[j], pat))
    decreases |paths|
  {
    var init := paths[..|paths| - 1];
    var p := paths[|paths| - 1];
    var r := SplitPaths(o, paths);
    var r0 := SplitPaths(o, init);
    if IsRegexpPath(o, p, pat) {
      assert r.names == r0.names[pat := o.pathRegexp(p).value.0];
      assert o.pathRegexp(paths[|paths| - 1]) == Some((r.names[pat], pat));
    } else {
      assert r.names == r0.names
        || (o.pathRegexp(p).Some? && r.names == r0.names[o.pathRegexp(p).value.1 := o.pathRegexp(p).value.0]);
      assert pat in r0.names && r0.names[pat] == r.names[pat];
      SplitPathsLastName(o, init, pat);
      var i :| 0 <= i < |init| && o.pathRegexp(init[i]) == Some((r0.names[pat], pat))
        && forall j | i < j < |init| :: !IsRegexpPath(o, init[j], pat);
      forall j | i < j < |paths| ensures !IsRegexpPath(o, paths[j], pat) {
        if j < |init| {
          assert paths[j] == init[j];
        }
      }
      assert o.pathRegexp(paths[i]) == Some((r.names[pat], pat));
    }
  }

  /** buildMatch: a path match extended with the protocol, methods, hosts and headers that are set. */
  function BuildMatch(m: Matcher, base: Dict): Dict {
    var m1 := if m.protocol != "" then base["protocol" := Str(m.protocol)] else base;
    var m2 := if |m.methods| > 0 then m1["method" := Strs(m.methods)] else m1;
    var m3 := if |m.hosts| > 0 then m2["host" := Strs(m.hosts)] else m2;
    if |m.headers| > 0 then m3["header" := Header(m.headers)] else m3
  }

  /**
   * A match keeps its path key and has a protocol, method, host or header key
   * exactly when the matcher sets that field, holding the field's value.
   */
  lemma BuildMatchSound(m: Matcher, key: string, path: Value)
    requires key !in {"protocol", "method", "host", "header"}
    ensures var r := BuildMatch(m, map[key := path]);
      key in r && r[key] == path
      && ("protocol" in r <==> m.protocol != "") && (m.protocol != "" ==> r["protocol"] == Str(m.protocol))
      && ("method" in r <==> |m.methods| > 0) && (|m.methods| > 0 ==> r["method"] == Strs(m.methods))
      && ("host" in r <==> |m.hosts| > 0) && (|m.hosts| > 0 ==> r["host"] == Strs(m.hosts))
      && ("header" in r <==> |m.headers| > 0) && (|m.headers| > 0 ==> r["header"] == Header(m.headers))
      && r.Keys <= {key, "protocol", "method", "host", "header"}
  { }

  /** The match of one regexp path. */
  function RegexpMatch(m: Matcher, name: string, pattern: string): Dict {
    BuildMatch(m, map["path_regexp" := StrMap(map["name" := name, "pattern" := pattern])])
  }

  /** The matches of the regexp patterns, in pattern order. */
  function RegexpMatchList(m: Matcher, patterns: seq<string>, names: map<string, string>): (r: seq<Dict>)
    requires forall pat | pat in patterns :: pat in names
    ensures |r| == |patterns|
    ensures forall i | 0 <= i < |patterns| :: r[i] == RegexpMatch(m, names[patterns[i]], patterns[i])
    decreases |patterns|
  {
    if patterns == [] then []
    else
      var n := |patterns| - 1;
      RegexpMatchList(m, patterns[..n], names) + [RegexpMatch(m, names[patterns[n]], patterns[n])]
  }

  /** buildRouteMatches: one match for all normal paths, if any, then one per regexp pattern. */
  function RouteMatches(o: Oracles, m: Matcher): seq<Dict> {
    var sp := SplitPaths(o, m.paths);
    (if |sp.normal| > 0 then [BuildMatch(m, map["path" := Strs(sp.normal)])] else [])
      + RegexpMatchList(m, sp.patterns, sp.names)
  }

  /**
   * There is one match for the normal paths when there are any, first, and
   * one per distinct regexp pattern, named by the last path with that pattern;
   * each match carries the protocol, methods, hosts and headers that are set.
   */
  lemma RouteMatchesSound(o: Oracles, m: Matcher)
    ensures var sp := SplitPaths(o, m.paths); var r := RouteMatches(o, m);
      var off := if |sp.normal| > 0 then 1 else 0;
      |r| == off + |sp.patterns|
      && (|sp.normal| > 0 ==> r[0] == BuildMatch(m, map["path" := Strs(sp.normal)]))
      && forall j | 0 <= j < |sp.patterns| :: r[off + j] == RegexpMatch(m, sp.names[sp.patterns[j]], sp.patterns[j])
  { }

  /** buildRouteMatches: the paths split in one loop, then one match per regexp pattern. */
  method BuildRouteMatches(o: Oracles, m: Matcher) returns (matches: seq<Dict>)
    ensures matches == RouteMatches(o, m)
  {
    var sp := SplitMatcherPaths(o, m.paths);
    matches := [];
    if |sp.normal| > 0 {
      matches := [BuildMatch(m, map["path" := Strs(sp.normal)])];
    }
    var regexps := RegexpMatches(m, sp.patterns, sp.names);
    matches := matches + regexps;
  }

  /** The path-splitting loop of buildRouteMatches. */
  method SplitMatcherPaths(o: Oracles, paths: seq<string>) returns (sp: PathSplit)
    ensures sp == SplitPaths(o, paths)
  {
    var normal: seq<string> := [];
    var patterns: seq<string> := [];
    var names: map<string, string> := map[];
    for i := 0 to |paths|
      invariant SplitPaths(o, paths[..i]) == PathSplit(normal, patterns, names)
    {
      assert paths[..i + 1][..i] == paths[..i];
      var p := paths[i];
      match o.pathRegexp(p) {
        case None =>
          normal := normal + [p];
        case Some(np) =>
          if np.1 !in names {
            patterns := patterns + [np.1];
          }
          names := names[np.1 := np.0];
      }
    }
    assert paths[..|paths|] == paths;
    return PathSplit(normal, patterns, names);
  }

  /** One match per regexp pattern, in pattern order. */
  method RegexpMatches(m: Matcher, patterns: seq<string>, names: map<string, string>) returns (matches: seq<Dict>)
    requires forall pat | pat in patterns :: pat in names
    ensures matches == RegexpMatchList(m, patterns, names)
  {
    matches := [];
    for j := 0 to |patterns|
      invariant |matches| == j
      invariant forall k | 0 <= k < j :: matches[k] == RegexpMatch(m, names[patterns[k]], patterns[k])
    {
      matches := matches + [RegexpMatch(m, names[patterns[j]], patterns[j])];
    }
  }

  // ---------------------------------------------------------------- subroutes

  /** The routes one applied plugin contributes: the canary expansion, or the plugin's handler. */
  function PluginFragment(o: Oracles, services: map<string, Service>, p: Plugin): Result<seq<Dict>, BuildError> {
    if p.typ == PluginTypeCanary then Canary(o, p, services) else Ok([BuildPluginRoute(p)])
  }

  function FragmentOf(o: Oracles, services: map<string, Service>): Plugin -> Result<seq<Dict>, BuildError> {
    p => PluginFragment(o, services, p)
  }

  /** The concatenation of a list of lists. */
  function Flatten<T>(ss: seq<seq<T>>): seq<T>
    decreases |ss|
  {
    if ss == [] then [] else Flatten(ss[..|ss| - 1]) + ss[|ss| - 1]
  }

  lemma {:induction false} FlattenSingletons<T>(ss: seq<seq<T>>)
    requires forall i | 0 <= i < |ss| :: |ss[i]| == 1
    ensures |Flatten(ss)| == |ss|
    ensures forall i | 0 <= i < |ss| :: Flatten(ss)[i] == ss[i][0]
    decreases |ss|
  {
    if ss != [] {
      var init := ss[..|ss| - 1];
      FlattenSingletons(init);
      assert forall i | 0 <= i < |init| :: init[i] == ss[i];
    }
  }

  /** The routes of the applied plugins, in plugin order; the first failing plugin aborts. */
  function PluginRoutes(o: Oracles, services: map<string, Service>, applied: seq<Plugin>): Result<seq<Dict>, BuildError> {
    var parts :- MapResult(applied, FragmentOf(o, services));
    Ok(Flatten(parts))
  }

  /**
   * The plugin routes are built exactly when every applied plugin's are; they
   * are then each plugin's routes in turn.
   */
  lemma PluginRoutesSound(o: Oracles, services: map<string, Service>, applied: seq<Plugin>)
    ensures var r := PluginRoutes(o, services, applied);
      (r.Ok? <==> forall i | 0 <= i < |applied| :: PluginFragment(o, services, applied[i]).Ok?)
      && (r.Ok? ==> exists parts: seq<seq<Dict>> :: (|parts| == |applied| && r.value == Flatten(parts)
            && forall i | 0 <= i < |applied| :: parts[i] == PluginFragment(o, services, applied[i]).value))
  {
    var f := FragmentOf(o, services);
    MapResultOk(applied, f);
  }

  /** Without canary plugins, the plugin routes are one handler route per applied plugin, in order. */
  lemma PluginRoutesWithoutCanary(o: Oracles, services: map<string, Service>, applied: seq<Plugin>)
    requires forall i | 0 <= i < |applied| :: applied[i].typ != PluginTypeCanary
    ensures var r := PluginRoutes(o, services, applied);
      r.Ok? && |r.value| == |applied| && forall i | 0 <= i < |applied| :: r.value[i] == BuildPluginRoute(applied[i])
  {
    var f := FragmentOf(o, services);
    MapResultOk(applied, f);
    FlattenSingletons(MapResult(applied, f).value);
  }

  /** buildSubRoutes: a static response alone, or the URI rewrites, the plugin routes and the proxy. */
  function SubRoutes(o: Oracles, r: Route, services: map<string, Service>, plugins: seq<Plugin>): Result<seq<Dict>, BuildError>
    requires r.serviceName in services
  {
    if r.response.Ptr? then Ok([map["handle" := One(BuildStaticResponse(r.response.val)[0])]])
    else
      var applied :- AppliedPlugins(plugins, r);
      var fragments :- PluginRoutes(o, services, applied);
      var proxy :- ReverseProxyRoute(o, services[r.serviceName], map[]);
      Ok(ManipulateUri(r.uri, map[]) + fragments + [proxy])
  }

  /** A static route is its static response and nothing else, whatever the plugins and the service. */
  lemma SubRoutesStatic(o: Oracles, r: Route, services: map<string, Service>, plugins: seq<Plugin>)
    requires r.serviceName in services && r.response.Ptr?
    ensures var s := SubRoutes(o, r, services, plugins);
      s.Ok? && |s.value| == 1 && s.value[0].Keys == {"handle"}
      && s.value[0]["handle"] == One(BuildStaticResponse(r.response.val)[0])
      && "handler" in BuildStaticResponse(r.response.val)[0]
      && BuildStaticResponse(r.response.val)[0]["handler"] == Str("static_response")
  { }

  /**
   * A proxy route fails exactly when plugin selection, a plugin or the
   * service's proxy fails, with the first of these errors.
   */
  lemma SubRoutesErrors(o: Oracles, r: Route, services: map<string, Service>, plugins: seq<Plugin>)
    requires r.serviceName in services && r.response.Nil?
    ensures var s := SubRoutes(o, r, services, plugins); var a := AppliedPlugins(plugins, r);
      (a.Err? ==> s == Err(a.error))
      && (a.Ok? && PluginRoutes(o, services, a.value).Err? ==> s == Err(PluginRoutes(o, services, a.value).error))
      && (a.Ok? && PluginRoutes(o, services, a.value).Ok? ==>
            (s.Ok? <==> ReverseProxyRoute(o, services[r.serviceName], map[]).Ok?))
  { }

  /**
   * A built proxy route is the URI rewrites, then the plugin routes (canary
   * proxies among them), and last the unmatched reverse proxy of the route's
   * own service.
   */
  lemma SubRoutesProxyLast(o: Oracles, r: Route, services: map<string, Service>, plugins: seq<Plugin>)
    requires r.serviceName in services && r.response.Nil? && SubRoutes(o, r, services, plugins).Ok?
    ensures var s := SubRoutes(o, r, services, plugins).value; var u := ManipulateUri(r.uri, map[]);
      var a := AppliedPlugins(plugins, r).value; var proxy := ReverseProxyRoute(o, services[r.serviceName], map[]);
      AppliedPlugins(plugins, r).Ok? && PluginRoutes(o, services, a).Ok? && proxy.Ok?
      && |s| == |u| + |PluginRoutes(o, services, a).value| + 1
      && s[..|u|] == u
      && s[|u|..|s| - 1] == PluginRoutes(o, services, a).value
      && s[|s| - 1] == proxy.value
      && "match" !in s[|s| - 1]
      && forall i | 0 <= i < |u| :: "match" !in s[i]
  {
    var s := SubRoutes(o, r, services, plugins).value;
    var u := ManipulateUri(r.uri, map[]);
    var f := PluginRoutes(o, services, AppliedPlugins(plugins, r).value).value;
    assert s == u + f + [ReverseProxyRoute(o, services[r.serviceName], map[]).value];
    assert s[..|u|] == u;
    assert s[|u|..|s| - 1] == f;
    forall i | 0 <= i < |u| ensures "match" !in s[i] {
      assert s[i] == u[i];
    }
  }

  /** buildSubRoutes, appending the routes of each applied plugin in turn. */
  method BuildSubRoutes(o: Oracles, r: Route, services: map<string, Service>, plugins: seq<Plugin>)
    returns (res: Result<seq<Dict>, BuildError>)
    requires r.serviceName in services
    ensures res == SubRoutes(o, r, services, plugins)
  {
    if r.response.Ptr? {
      return Ok([map["handle" := One(BuildStaticResponse(r.response.val)[0])]]);
    }
    var routes := ManipulateUri(r.uri, map[]);
    var applied := FindAppliedPlugins(plugins, r);
    if applied.Err? {
      return Err(applied.error);
    }
    var fragments := BuildPluginRoutes(o, services, applied.value);
    if fragments.Err? {
      return Err(fragments.error);
    }
    routes := routes + fragments.value;
    var proxy := ReverseProxy(o, services[r.serviceName], map[]);
    if proxy.Err? {
      return Err(proxy.error);
    }
    routes := routes + [proxy.value];
    return Ok(routes);
  }

  /** The plugin loop of buildSubRoutes: the routes of each applied plugin, appended in turn. */
  method BuildPluginRoutes(o: Oracles, services: map<string, Service>, ps: seq<Plugin>)
    returns (res: Result<seq<Dict>, BuildError>)
    ensures res == PluginRoutes(o, services, ps)
  {
    var routes: seq<Dict> := [];
    ghost var parts: seq<seq<Dict>> := [];
    for i := 0 to |ps|
      invariant MapResult(ps[..i], FragmentOf(o, services)) == Ok(parts)
      invariant routes == Flatten(parts)
    {
      var p := ps[i];
      assert ps[..i + 1][..i] == ps[..i];
      var fragment: Result<seq<Dict>, BuildError>;
      if p.typ == PluginTypeCanary {
        fragment := Canary(o, p, services);
      } else {
        fragment := Ok([BuildPluginRoute(p)]);
      }
      assert FragmentOf(o, services)(p) == fragment;
      if fragment.Err? {
        MapResultPrefixErr(ps, FragmentOf(o, services), i + 1);
        return Err(fragment.error);
      }
      assert (parts + [fragment.value])[..|parts|] == parts;
      routes := routes + fragment.value;
      parts := parts + [fragment.value];
    }
    assert ps[..|ps|] == ps;
    return Ok(routes);
  }

  // ------------------------------------------------------------------ sorting

  /** The routes from highest priority to lowest. */
  ghost predicate Descending(s: seq<Route>) {
    forall i, j | 0 <= i < j < |s| :: s[i].priority >= s[j].priority
  }

  /** x placed after every route of at least its priority: one step of a stable sort. */
  function InsertRoute(sorted: seq<Route>, x: Route): seq<Route>
    decreases |sorted|
  {
    if sorted == [] || sorted[|sorted| - 1].priority >= x.priority then sorted + [x]
    else InsertRoute(sorted[..|sorted| - 1], x) + [sorted[|sorted| - 1]]
  }

  /** sortRoutes: a stable sort from highest priority to lowest. */
  function SortRoutes(routes: seq<Route>): seq<Route>
    decreases |routes|
  {
    if routes == [] then [] else InsertRoute(SortRoutes(routes[..|routes| - 1]), routes[|routes| - 1])
  }

  /** The routes of priority p, in order. */
  function WithPriority(s: seq<Route>, p: int): (r: seq<Route>)
    decreases |s|
  {
    if s == [] then []
    else WithPriority(s[..|s| - 1], p) + (if s[|s| - 1].priority == p then [s[|s| - 1]] else [])
  }

  lemma {:induction false} InsertRoutePermutes(sorted: seq<Route>, x: Route)
    ensures multiset(InsertRoute(sorted, x)) == multiset(sorted) + multiset{x}
    decreases |sorted|
  {
    if sorted != [] && sorted[|sorted| - 1].priority < x.priority {
      var init := sorted[..|sorted| - 1];
      InsertRoutePermutes(init, x);
      assert sorted == init + [sorted[|sorted| - 1]];
    }
  }

  lemma {:induction false} InsertRouteSorted(sorted: seq<Route>, x: Route)
    requires Descending(sorted)
    ensures Descending(InsertRoute(sorted, x))
    decreases |sorted|
  {
    if sorted != [] && sorted[|sorted| - 1].priority < x.priority {
      var init := sorted[..|sorted| - 1];
      var last := sorted[|sorted| - 1];
      InsertRouteSorted(init, x);
      InsertRoutePermutes(init, x);
      var ins := InsertRoute(init, x);
      var r := ins + [last];
      assert InsertRoute(sorted, x) == r;
      forall i | 0 <= i < |ins| ensures ins[i].priority >= last.priority {
        assert ins[i] in multiset(init) + multiset{x};
        if ins[i] != x {
          var k :| 0 <= k < |init| && init[k] == ins[i];
          assert sorted[k] == init[k];
        }
      }
      forall i, j | 0 <= i < j < |r| ensures r[i].priority >= r[j].priority {
        assert r[i] == ins[i];
        if j < |ins| {
          assert r[j] == ins[j];
        }
      }
    }
  }

  lemma {:induction false} InsertRouteStable(sorted: seq<Route>, x: Route, p: int)
    ensures WithPriority(InsertRoute(sorted, x), p) == WithPriority(sorted, p) + (if x.priority == p then [x] else [])
    decreases |sorted|
  {
    var xs: seq<Route> := if x.priority == p then [x] else [];
    if sorted == [] || sorted[|sorted| - 1].priority >= x.priority {
      assert InsertRoute(sorted, x) == sorted + [x];
      assert (sorted + [x])[..|sorted|] == sorted;
      assert WithPriority(sorted + [x], p) == WithPriority(sorted, p) + xs;
    } else {
      var init := sorted[..|sorted| - 1];
      var last := sorted[|sorted| - 1];
      var ls: seq<Route> := if last.priority == p then [last] else [];
      InsertRouteStable(init, x, p);
      var ins := InsertRoute(init, x);
      assert InsertRoute(sorted, x) == ins + [last];
      assert (ins + [last])[..|ins|] == ins;
      assert WithPriority(ins + [last], p) == WithPriority(ins, p) + ls;
      assert WithPriority(sorted, p) == WithPriority(init, p) + ls;
      if x.priority == p {
        assert ls == [];
        assert WithPriority(init, p) + xs + ls == WithPriority(init, p) + xs;
        assert WithPriority(init, p) + ls + xs == WithPriority(init, p) + xs;
      } else {
        assert xs == [];
        assert WithPriority(init, p) + xs + ls == WithPriority(init, p) + ls;
        assert WithPriority(init, p) + ls + xs == WithPriority(init, p) + ls;
      }
    }
  }

  /**
   * The sorted routes run from highest priority to lowest, are a permutation
   * of the input, and keep the input order among routes of equal priority.
   */
  lemma {:induction false} SortRoutesSound(routes: seq<Route>)
    ensures var s := SortRoutes(routes);
      Descending(s) && multiset(s) == multiset(routes)
      && forall p :: WithPriority(s, p) == WithPriority(routes, p)
    decreases |routes|
  {
    if routes != [] {
      var init := routes[..|routes| - 1];
      var last := routes[|routes| - 1];
      SortRoutesSound(init);
      InsertRoutePermutes(SortRoutes(init), last);
      InsertRouteSorted(SortRoutes(init), last);
      assert routes == init + [last];
      forall p ensures WithPriority(SortRoutes(routes), p) == WithPriority(routes, p) {
        InsertRouteStable(SortRoutes(init), last, p);
      }
    }
  }

  // -------------------------------------------------------------------- build

  /** One top-level route: the route's matches, and a subroute handler holding its subroutes. */
  function BuildRule(o: Oracles, r: Route, services: map<string, Service>, plugins: seq<Plugin>): Result<Dict, BuildError> {
    if r.serviceName !in services then Err(RouteServiceNotFound(r.name, r.serviceName))
    else
      var subs :- SubRoutes(o, r, services, plugins);
      Ok(map["match" := Objects(RouteMatches(o, r.matcher)),
             "handle" := One(map["handler" := Str("subroute"), "routes" := Objects(subs)])])
  }

  function RuleOf(o: Oracles, services: map<string, Service>, plugins: seq<Plugin>): Route -> Result<Dict, BuildError> {
    r => BuildRule(o, r, services, plugins)
  }

  /**
   * Build: one top-level route per route, from highest priority to lowest.
   * `routes` and `plugins` list the values of the store's maps in iteration order.
   */
  function Build(o: Oracles, routes: seq<Route>, services: map<string, Service>, plugins: seq<Plugin>): Result<seq<Dict>, BuildError> {
    MapResult(SortRoutes(routes), RuleOf(o, services, plugins))
  }

  /** A rule matches by the route's matcher and hands over to a subroute holding the route's subroutes. */
  lemma BuildRuleShape(o: Oracles, r: Route, services: map<string, Service>, plugins: seq<Plugin>)
    ensures var b := BuildRule(o, r, services, plugins);
      (r.serviceName !in services ==> b == Err(RouteServiceNotFound(r.name, r.serviceName)))
      && (r.serviceName in services ==> (b.Ok? <==> SubRoutes(o, r, services, plugins).Ok?))
      && (b.Ok? ==> (b.value.Keys == {"match", "handle"}
            && b.value["match"] == Objects(RouteMatches(o, r.matcher))
            && b.value["handle"] == One(map["handler" := Str("subroute"),
                                            "routes" := Objects(SubRoutes(o, r, services, plugins).value)])))
  { }

  /**
   * The build succeeds exactly when every route's rule does; it then holds one
   * rule per route, in the order of the stable priority sort.
   */
  lemma BuildSound(o: Oracles, routes: seq<Route>, services: map<string, Service>, plugins: seq<Plugin>)
    ensures var b := Build(o, routes, services, plugins); var s := SortRoutes(routes);
      Descending(s) && multiset(s) == multiset(routes)
      && (b.Ok? <==> forall i | 0 <= i < |s| :: BuildRule(o, s[i], services, plugins).Ok?)
      && (b.Ok? ==> (|b.value| == |routes|
            && forall i | 0 <= i < |s| :: b.value[i] == BuildRule(o, s[i], services, plugins).value))
  {
    SortRoutesSound(routes);
    MapResultOk(SortRoutes(routes), RuleOf(o, services, plugins));
    assert |SortRoutes(routes)| == |multiset(routes)|;
  }

  /** A route whose service is missing makes the whole build fail. */
  lemma BuildRejectsMissingService(o: Oracles, routes: seq<Route>, services: map<string, Service>,
                                   plugins: seq<Plugin>, r: Route)
    requires r in routes && r.serviceName !in services
    ensures Build(o, routes, services, plugins).Err?
  {
    SortRoutesSound(routes);
    var s := SortRoutes(routes);
    assert r in multiset(s);
    var i :| 0 <= i < |s| && s[i] == r;
    MapResultOk(s, RuleOf(o, services, plugins));
    assert RuleOf(o, services, plugins)(s[i]).Err?;
  }

  /** Build, one top-level route per loop step over the sorted routes. */
  method BuildRoutes(o: Oracles, routes: seq<Route>, services: map<string, Service>, plugins: seq<Plugin>)
    returns (res: Result<seq<Dict>, BuildError>)
    ensures res == Build(o, routes, services, plugins)
  {
    var sorted := SortRoutes(routes);
    res := BuildRules(o, sorted, services, plugins);
  }

  /** Build's loop: one rule per route, in the given order, stopping at the first error. */
  method BuildRules(o: Oracles, sorted: seq<Route>, services: map<string, Service>, plugins: seq<Plugin>)
    returns (res: Result<seq<Dict>, BuildError>)
    ensures res == MapResult(sorted, RuleOf(o, services, plugins))
  {
    var f := RuleOf(o, services, plugins);
    var rules: seq<Dict> := [];
    for i := 0 to |sorted|
      invariant MapResult(sorted[..i], f) == Ok(rules)
    {
      var rule := BuildRuleFor(o, sorted[i], services, plugins);
      if rule.Err? {
        assert MapResult(sorted[..i + 1], f) == Err(rule.error) by {
          assert sorted[..i + 1][..i] == sorted[..i];
        }
        MapResultPrefixErr(sorted, f, i + 1);
        return Err(rule.error);
      }
      MapResultSnoc(sorted, f, i, rules, rule.value);
      rules := rules + [rule.value];
    }
    assert sorted[..|sorted|] == sorted;
    return Ok(rules);
  }

  /** The body of Build's loop: the missing-service check, then the route's matches and subroutes. */
  method BuildRuleFor(o: Oracles, r: Route, services: map<string, Service>, plugins: seq<Plugin>)
    returns (res: Result<Dict, BuildError>)
    ensures res == BuildRule(o, r, services, plugins) == RuleOf(o, services, plugins)(r)
  {
    if r.serviceName !in services {
      return Err(RouteServiceNotFound(r.name, r.serviceName));
    }
    var matches := BuildRouteMatches(o, r.matcher);
    var subs := BuildSubRoutes(o, r, services, plugins);
    if subs.Err? {
      return Err(subs.error);
    }
    return Ok(map["match" := Objects(matches),
                  "handle" := One(map["handler" := Str("subroute"), "routes" := Objects(subs.value)])]);
  }
}
