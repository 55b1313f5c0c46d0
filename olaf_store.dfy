// The YAML store of olaf: the pass that turns a decoded YAML document into the
// services, routes and plugins maps the route compiler consumes, and the
// store's lookups over those maps.
module OlafStore {
  import opened GoStrings
  import opened OlafEntity
  import opened Wrappers

  // ------------------------------------------------------------ the YAML document

  datatype YamlUpstream = YamlUpstream(
    backends: seq<string>, maxRequests: int, dialTimeout: string,
    lbPolicy: string, lbTryDuration: string, lbTryInterval: string,
    healthUri: string, healthPort: int, healthInterval: string, healthTimeout: string, healthStatus: int,
    headerUp: Opt<HeaderOps>, headerDown: Opt<HeaderOps>)

  /** A route entry: the route itself (inlined in the YAML) and the plugins applied to it. */
  datatype YamlRoute = YamlRoute(route: Route, plugins: seq<Plugin>)

  datatype YamlService = YamlService(
    name: string, upstream: Opt<YamlUpstream>, routes: seq<YamlRoute>, plugins: seq<Plugin>)

  datatype Content = Content(services: seq<YamlService>, plugins: seq<Plugin>)

  // ------------------------------------------------------------ naming and upstreams

  /** The explicit name, or the generated `prefix<i>` when it is empty. */
  function NameAt(name: string, prefix: string, i: nat): string {
    if name == "" then prefix + Itoa(i) else name
  }

  /** One backend per URL, in order, all sharing the upstream's max_requests. */
  function Backends(urls: seq<string>, maxRequests: int): (r: seq<Backend>)
    ensures |r| == |urls|
    ensures forall i | 0 <= i < |urls| :: r[i] == Backend(urls[i], maxRequests)
    decreases |urls|
  {
    if urls == [] then [] else Backends(urls[..|urls| - 1], maxRequests) + [Backend(urls[|urls| - 1], maxRequests)]
  }

  /**
   * The upstream of a service: the backends, an HTTP transport that is always
   * present, load balancing only when one of its settings is given, and active
   * health checks only when a health URI is given.
   */
  function ConvertUpstream(u: YamlUpstream): (r: Upstream)
    ensures r.backends == Backends(u.backends, u.maxRequests)
    ensures r.http == Ptr(TransportHttp(u.dialTimeout))
    ensures r.headerUp == u.headerUp && r.headerDown == u.headerDown
    ensures r.loadBalancing.Ptr? <==> (u.lbPolicy != "" || u.lbTryDuration != "" || u.lbTryInterval != "")
    ensures r.loadBalancing.Ptr? ==> r.loadBalancing.val == LoadBalancing(u.lbPolicy, u.lbTryDuration, u.lbTryInterval)
    ensures r.activeHealthChecks.Ptr? <==> u.healthUri != ""
    ensures r.activeHealthChecks.Ptr? ==> (r.activeHealthChecks.val
      == ActiveHealthChecks(u.healthUri, u.healthPort, u.healthInterval, u.healthTimeout, u.healthStatus))
  {
    var lb := if u.lbPolicy != "" || u.lbTryDuration != "" || u.lbTryInterval != "" then
      Ptr(LoadBalancing(u.lbPolicy, u.lbTryDuration, u.lbTryInterval)) else Nil;
    var hc := if u.healthUri != "" then
      Ptr(ActiveHealthChecks(u.healthUri, u.healthPort, u.healthInterval, u.healthTimeout, u.healthStatus)) else Nil;
    Upstream(Backends(u.backends, u.maxRequests), Ptr(TransportHttp(u.dialTimeout)), lb, hc, u.headerUp, u.headerDown)
  }

  // ------------------------------------------------------------ the normalised entities

  /** Where a plugin list sits in the document, which decides the scope fields it gets. */
  datatype PluginScope = GlobalScope | ServiceScope(service: string) | RouteScope(service: string, route: string)

  /**
   * The k-th plugin of a list after the pass: named `prefix<k>` if unnamed,
   * ordered after the Type of the plugin before it if it has no OrderAfter and
   * is not the first, and given the service and route names of its scope.
   */
  function Normalized(list: seq<Plugin>, k: nat, prefix: string, scope: PluginScope): (p: Plugin)
    requires k < |list|
    ensures p.name == NameAt(list[k].name, prefix, k)
    ensures p.orderAfter == (if list[k].orderAfter == "" && k > 0 then list[k - 1].typ else list[k].orderAfter)
    ensures p.typ == list[k].typ && p.disabled == list[k].disabled && p.config == list[k].config
    ensures scope.GlobalScope? ==> p.serviceName == list[k].serviceName && p.routeName == list[k].routeName
    ensures scope.ServiceScope? ==> p.serviceName == scope.service && p.routeName == list[k].routeName
    ensures scope.RouteScope? ==> p.serviceName == scope.service && p.routeName == scope.route
  {
    var q := list[k];
    var named := q.(name := NameAt(q.name, prefix, k),
                    orderAfter := if q.orderAfter == "" && k > 0 then list[k - 1].typ else q.orderAfter);
    match scope
    case GlobalScope => named
    case ServiceScope(s) => named.(serviceName := s)
    case RouteScope(s, r) => named.(serviceName := s, routeName := r)
  }

  /** The first n plugins of a list after the pass. */
  function NormalizedList(list: seq<Plugin>, prefix: string, scope: PluginScope, n: nat): (r: seq<Plugin>)
    requires n <= |list|
    ensures |r| == n && forall k | 0 <= k < n :: r[k] == Normalized(list, k, prefix, scope)
  {
    if n == 0 then [] else NormalizedList(list, prefix, scope, n - 1) + [Normalized(list, n - 1, prefix, scope)]
  }

  /** The name of the i-th service. */
  function ServiceNameAt(c: Content, i: nat): string
    requires i < |c.services|
  {
    NameAt(c.services[i].name, "service_", i)
  }

  /** The i-th service: its name and its upstream, nil without an upstream entry. */
  function ServiceAt(c: Content, i: nat): (s: Service)
    requires i < |c.services|
    ensures s.name == ServiceNameAt(c, i)
    ensures s.upstream.Nil? <==> c.services[i].upstream.Nil?
    ensures s.upstream.Ptr? ==> s.upstream.val == ConvertUpstream(c.services[i].upstream.val)
  {
    var y := c.services[i];
    Service(ServiceNameAt(c, i), if y.upstream.Ptr? then Ptr(ConvertUpstream(y.upstream.val)) else Nil)
  }

  /** The j-th route of a service named sname: named `<sname>_route_<j>` if unnamed, and scoped to the service. */
  function RouteAt(y: YamlService, sname: string, j: nat): (r: Route)
    requires j < |y.routes|
    ensures r.name == NameAt(y.routes[j].route.name, sname + "_route_", j)
    ensures r.serviceName == sname
    ensures r == y.routes[j].route.(name := r.name, serviceName := sname)
  {
    var r := y.routes[j].route;
    r.(name := NameAt(r.name, sname + "_route_", j), serviceName := sname)
  }

  /** The plugins of the j-th route, named after the route and scoped to the route and the service. */
  function RoutePlugins(y: YamlService, sname: string, j: nat): seq<Plugin>
    requires j < |y.routes|
  {
    var rname := RouteAt(y, sname, j).name;
    var list := y.routes[j].plugins;
    NormalizedList(list, rname + "_plugin_", RouteScope(sname, rname), |list|)
  }

  /** The plugins applied to a service itself, scoped to the service only. */
  function ServicePlugins(y: YamlService, sname: string): seq<Plugin> {
    NormalizedList(y.plugins, sname + "_plugin_", ServiceScope(sname), |y.plugins|)
  }

  /** The global plugins: named `plugin_<i>` if unnamed and not re-scoped. */
  function GlobalPlugins(c: Content): seq<Plugin> {
    NormalizedList(c.plugins, "plugin_", GlobalScope, |c.plugins|)
  }

  /** The first n routes of a service. */
  function RoutesOf(y: YamlService, sname: string, n: nat): (r: seq<Route>)
    requires n <= |y.routes|
    ensures |r| == n && forall j | 0 <= j < n :: r[j] == RouteAt(y, sname, j)
  {
    if n == 0 then [] else RoutesOf(y, sname, n - 1) + [RouteAt(y, sname, n - 1)]
  }

  /** The plugins of the first n routes of a service, route by route. */
  function RoutePluginsOf(y: YamlService, sname: string, n: nat): seq<Plugin>
    requires n <= |y.routes|
  {
    if n == 0 then [] else RoutePluginsOf(y, sname, n - 1) + RoutePlugins(y, sname, n - 1)
  }

  /** Every service, in document order. */
  function ServiceList(c: Content, n: nat): (r: seq<Service>)
    requires n <= |c.services|
    ensures |r| == n && forall i | 0 <= i < n :: r[i] == ServiceAt(c, i)
  {
    if n == 0 then [] else ServiceList(c, n - 1) + [ServiceAt(c, n - 1)]
  }

  /** The routes of the first n services, in document order. */
  function RouteList(c: Content, n: nat): seq<Route>
    requires n <= |c.services|
  {
    if n == 0 then []
    else RouteList(c, n - 1) + RoutesOf(c.services[n - 1], ServiceNameAt(c, n - 1), |c.services[n - 1].routes|)
  }

  /** The plugins of the first n services: per service, its routes' plugins and then its own. */
  function PluginList(c: Content, n: nat): seq<Plugin>
    requires n <= |c.services|
  {
    if n == 0 then []
    else
      var y := c.services[n - 1];
      var sname := ServiceNameAt(c, n - 1);
      PluginList(c, n - 1) + (RoutePluginsOf(y, sname, |y.routes|) + ServicePlugins(y, sname))
  }

  // ------------------------------------------------------------ maps filled in order

  /** Each entry of xs stored under its key, in order, so a later entry overwrites an earlier one. */
  function PutAll<T>(m: map<string, T>, xs: seq<T>, key: T -> string): map<string, T>
    decreases |xs|
  {
    if xs == [] then m else PutAll(m, xs[..|xs| - 1], key)[key(xs[|xs| - 1]) := xs[|xs| - 1]]
  }

  function ServiceKey(s: Service): string { s.name }
  function RouteKey(r: Route): string { r.name }
  function PluginKey(p: Plugin): string { p.name }

  /** Storing a + b is storing a and then b. */
  lemma {:induction false} PutAllConcat<T>(m: map<string, T>, a: seq<T>, b: seq<T>, key: T -> string)
    ensures PutAll(m, a + b, key) == PutAll(PutAll(m, a, key), b, key)
    decreases |b|
  {
    if b == [] {
      assert a + b == a;
    } else {
      var b0 := b[..|b| - 1];
      assert (a + b)[..|a + b| - 1] == a + b0;
      PutAllConcat(m, a, b0, key);
    }
  }

  /** Storing one more entry overwrites its key. */
  lemma PutAllSnoc<T>(m: map<string, T>, xs: seq<T>, x: T, key: T -> string)
    ensures PutAll(m, xs + [x], key) == PutAll(m, xs, key)[key(x) := x]
  {
    assert (xs + [x])[..|xs + [x]| - 1] == xs;
  }

  /**
   * A key is present exactly when it was present before or some entry has it;
   * then it holds the last entry with that key, or its old value if none has it.
   */
  lemma {:induction false} PutAllLookup<T>(m: map<string, T>, xs: seq<T>, key: T -> string, k: string)
    ensures k in PutAll(m, xs, key) <==> (k in m || exists i | 0 <= i < |xs| :: key(xs[i]) == k)
    ensures (forall i | 0 <= i < |xs| :: key(xs[i]) != k) && k in m ==> PutAll(m, xs, key)[k] == m[k]
    ensures forall i | 0 <= i < |xs| :: (key(xs[i]) == k && (forall j | i < j < |xs| :: key(xs[j]) != k)
      ==> k in PutAll(m, xs, key) && PutAll(m, xs, key)[k] == xs[i])
    decreases |xs|
  {
    if xs != [] {
      var init := xs[..|xs| - 1];
      PutAllLookup(m, init, key, k);
      assert forall i | 0 <= i < |init| :: init[i] == xs[i];
    }
  }

  /** Every entry's key is present after storing. */
  lemma {:induction false} PutAllHas<T>(m: map<string, T>, xs: seq<T>, key: T -> string, i: nat)
    requires i < |xs|
    ensures key(xs[i]) in PutAll(m, xs, key)
    decreases |xs|
  {
    if i < |xs| - 1 {
      var init := xs[..|xs| - 1];
      PutAllHas(m, init, key, i);
      assert init[i] == xs[i];
    }
  }

  /** Starting from an empty map, every stored value is one of the entries, under its own key. */
  lemma {:induction false} PutAllFrom<T>(xs: seq<T>, key: T -> string)
    ensures forall k | k in PutAll(map[], xs, key) :: (PutAll(map[], xs, key)[k] in xs
      && key(PutAll(map[], xs, key)[k]) == k)
    decreases |xs|
  {
    if xs != [] {
      var init := xs[..|xs| - 1];
      PutAllFrom(init, key);
      assert forall x | x in init :: x in xs;
    }
  }

  // ------------------------------------------------------------ the post-unmarshal pass

  /** The data of a decoded document: each map filled from its entities in document order. */
  function ParseSpec(c: Content): Data {
    Data("",
      PutAll(map[], ServiceList(c, |c.services|), ServiceKey),
      PutAll(map[], RouteList(c, |c.services|), RouteKey),
      PutAll(map[], PluginList(c, |c.services|) + GlobalPlugins(c), PluginKey))
  }

  /** Parse after the YAML decoding: fills the three maps service by service, then the global plugins. */
  method Parse(c: Content) returns (d: Data)
    ensures d == ParseSpec(c)
  {
    var services: map<string, Service> := map[];
    var routes: map<string, Route> := map[];
    var plugins: map<string, Plugin> := map[];
    for i := 0 to |c.services|
      invariant services == PutAll(map[], ServiceList(c, i), ServiceKey)
      invariant routes == PutAll(map[], RouteList(c, i), RouteKey)
      invariant plugins == PutAll(map[], PluginList(c, i), PluginKey)
    {
      services, routes, plugins := AddService(c, i, services, routes, plugins);
    }
    plugins := AddPluginList(c.plugins, "plugin_", GlobalScope, plugins);
    PutAllConcat(map[], PluginList(c, |c.services|), GlobalPlugins(c), PluginKey);
    d := Data("", services, routes, plugins);
  }

  /** One service of the document: the service, then its routes with their plugins, then its own plugins. */
  method AddService(c: Content, i: nat, services0: map<string, Service>, routes0: map<string, Route>,
                    plugins0: map<string, Plugin>)
    returns (services: map<string, Service>, routes: map<string, Route>, plugins: map<string, Plugin>)
    requires i < |c.services|
    requires services0 == PutAll(map[], ServiceList(c, i), ServiceKey)
    requires routes0 == PutAll(map[], RouteList(c, i), RouteKey)
    requires plugins0 == PutAll(map[], PluginList(c, i), PluginKey)
    ensures services == PutAll(map[], ServiceList(c, i + 1), ServiceKey)
    ensures routes == PutAll(map[], RouteList(c, i + 1), RouteKey)
    ensures plugins == PutAll(map[], PluginList(c, i + 1), PluginKey)
  {
    var y := c.services[i];
    var sname := ServiceNameAt(c, i);
    var svc := ConvertService(c, i);
    assert ServiceList(c, i + 1) == ServiceList(c, i) + [svc];
    PutAllSnoc(map[], ServiceList(c, i), svc, ServiceKey);
    services := services0[sname := svc];
    var rs := RoutesOf(y, sname, |y.routes|);
    var rps := RoutePluginsOf(y, sname, |y.routes|);
    routes, plugins := AddServiceRoutes(y, sname, routes0, plugins0);
    assert RouteList(c, i + 1) == RouteList(c, i) + rs;
    PutAllConcat(map[], RouteList(c, i), rs, RouteKey);
    PutAllConcat(map[], PluginList(c, i), rps, PluginKey);
    plugins := AddPluginList(y.plugins, sname + "_plugin_", ServiceScope(sname), plugins);
    PutAllConcat(map[], PluginList(c, i) + rps, ServicePlugins(y, sname), PluginKey);
    assert PluginList(c, i + 1) == PluginList(c, i) + (rps + ServicePlugins(y, sname));
    ConcatAssoc(PluginList(c, i), rps, ServicePlugins(y, sname));
  }

  lemma ConcatAssoc<T>(a: seq<T>, b: seq<T>, c: seq<T>)
    ensures a + (b + c) == a + b + c
  { }

  /** The i-th service with its upstream converted. */
  method ConvertService(c: Content, i: nat) returns (svc: Service)
    requires i < |c.services|
    ensures svc == ServiceAt(c, i)
  {
    var y := c.services[i];
    var u: Opt<Upstream> := Nil;
    if y.upstream.Ptr? {
      var backends := BuildBackends(y.upstream.val.backends, y.upstream.val.maxRequests);
      u := Ptr(ConvertUpstream(y.upstream.val).(backends := backends));
    }
    svc := Service(ServiceNameAt(c, i), u);
  }

  /** The backends loop of the upstream conversion. */
  method BuildBackends(urls: seq<string>, maxRequests: int) returns (backends: seq<Backend>)
    ensures backends == Backends(urls, maxRequests)
  {
    backends := [];
    for i := 0 to |urls|
      invariant backends == Backends(urls[..i], maxRequests)
    {
      assert urls[..i + 1][..i] == urls[..i];
      backends := backends + [Backend(urls[i], maxRequests)];
    }
    assert urls[..|urls|] == urls;
  }

  /** The routes of one service, each followed by its plugins. */
  method AddServiceRoutes(y: YamlService, sname: string, routes0: map<string, Route>, plugins0: map<string, Plugin>)
    returns (routes: map<string, Route>, plugins: map<string, Plugin>)
    ensures routes == PutAll(routes0, RoutesOf(y, sname, |y.routes|), RouteKey)
    ensures plugins == PutAll(plugins0, RoutePluginsOf(y, sname, |y.routes|), PluginKey)
  {
    routes, plugins := routes0, plugins0;
    for j := 0 to |y.routes|
      invariant routes == PutAll(routes0, RoutesOf(y, sname, j), RouteKey)
      invariant plugins == PutAll(plugins0, RoutePluginsOf(y, sname, j), PluginKey)
    {
      var r := RouteAt(y, sname, j);
      PutAllSnoc(routes0, RoutesOf(y, sname, j), r, RouteKey);
      routes := routes[r.name := r];
      PutAllConcat(plugins0, RoutePluginsOf(y, sname, j), RoutePlugins(y, sname, j), PluginKey);
      plugins := AddPluginList(y.routes[j].plugins, r.name + "_plugin_", RouteScope(sname, r.name), plugins);
    }
  }

  /** One plugin list: each plugin named, implicitly ordered, scoped and stored in turn. */
  method AddPluginList(list: seq<Plugin>, prefix: string, scope: PluginScope, plugins0: map<string, Plugin>)
    returns (plugins: map<string, Plugin>)
    ensures plugins == PutAll(plugins0, NormalizedList(list, prefix, scope, |list|), PluginKey)
  {
    plugins := plugins0;
    for k := 0 to |list|
      invariant plugins == PutAll(plugins0, NormalizedList(list, prefix, scope, k), PluginKey)
    {
      var p := list[k];
      if p.name == "" {
        p := p.(name := prefix + Itoa(k));
      }
      if p.orderAfter == "" && k > 0 {
        p := p.(orderAfter := list[k - 1].typ);
      }
      match scope {
        case GlobalScope =>
        case ServiceScope(s) => p := p.(serviceName := s);
        case RouteScope(s, r) => p := p.(serviceName := s, routeName := r);
      }
      assert p == Normalized(list, k, prefix, scope);
      PutAllSnoc(plugins0, NormalizedList(list, prefix, scope, k), p, PluginKey);
      plugins := plugins[p.name := p];
    }
  }

  // ------------------------------------------------------------ properties of the pass

  /** Every route of the document lands under the name of a service it belongs to. */
  lemma {:induction false} RouteListScoped(c: Content, n: nat)
    requires n <= |c.services|
    ensures forall r | r in RouteList(c, n) :: exists i | 0 <= i < n :: r.serviceName == ServiceNameAt(c, i)
  {
    if n > 0 {
      RouteListScoped(c, n - 1);
      var rs := RoutesOf(c.services[n - 1], ServiceNameAt(c, n - 1), |c.services[n - 1].routes|);
      forall r | r in RouteList(c, n) ensures exists i | 0 <= i < n :: r.serviceName == ServiceNameAt(c, i) {
        if r in rs {
          assert r.serviceName == ServiceNameAt(c, n - 1);
        }
      }
    }
  }

  /** After the pass every route refers to a service that is in the services map. */
  lemma ParsedRoutesHaveServices(c: Content)
    ensures var d := ParseSpec(c);
      forall name | name in d.routes :: d.routes[name].serviceName in d.services
  {
    var routes := PutAll(map[], RouteList(c, |c.services|), RouteKey);
    PutAllFrom(RouteList(c, |c.services|), RouteKey);
    RouteListScoped(c, |c.services|);
    forall name | name in routes ensures routes[name].serviceName in ParseSpec(c).services {
      var i :| 0 <= i < |c.services| && routes[name].serviceName == ServiceNameAt(c, i);
      ServiceNameStored(c, i);
    }
  }

  /** Every service name of the document is a key of the services map. */
  lemma ServiceNameStored(c: Content, i: nat)
    requires i < |c.services|
    ensures ServiceNameAt(c, i) in ParseSpec(c).services
  {
    var svcs := ServiceList(c, |c.services|);
    PutAllHas(map[], svcs, ServiceKey, i);
    assert ServiceKey(svcs[i]) == ServiceNameAt(c, i);
  }

  /**
   * A service is stored under a name exactly when some service of the document
   * has that name, and it is the last such service.
   */
  lemma ParsedServices(c: Content, name: string)
    ensures var d := ParseSpec(c);
      (name in d.services <==> exists i | 0 <= i < |c.services| :: ServiceNameAt(c, i) == name)
      && forall i | 0 <= i < |c.services| :: (ServiceNameAt(c, i) == name
           && (forall j | i < j < |c.services| :: ServiceNameAt(c, j) != name)
           ==> name in d.services && d.services[name] == ServiceAt(c, i))
  {
    var svcs := ServiceList(c, |c.services|);
    PutAllLookup(map[], svcs, ServiceKey, name);
    assert forall i | 0 <= i < |c.services| :: ServiceKey(svcs[i]) == ServiceNameAt(c, i);
  }

  // ------------------------------------------------------------ the store

  /** An enumeration of a key set: every key exactly once, in some order. */
  ghost predicate Enumerates(order: seq<string>, keys: set<string>) {
    (forall i, j | 0 <= i < j < |order| :: order[i] != order[j]) && (forall k :: k in order <==> k in keys)
  }

  /** The routes in iteration order, kept when the service filter is empty or matches. */
  function FilterRoutes(routes: map<string, Route>, order: seq<string>, serviceName: string): (r: seq<Route>)
    requires forall k | k in order :: k in routes
    ensures forall x | x in r :: x in routes.Values && (serviceName == "" || x.serviceName == serviceName)
    decreases |order|
  {
    if order == [] then []
    else
      var init := FilterRoutes(routes, order[..|order| - 1], serviceName);
      var x := routes[order[|order| - 1]];
      if serviceName == "" || x.serviceName == serviceName then init + [x] else init
  }

  /** The plugin filter: a service name takes precedence over a route name; neither keeps all. */
  predicate PluginSelected(p: Plugin, serviceName: string, routeName: string) {
    if serviceName != "" then p.serviceName == serviceName
    else if routeName != "" then p.routeName == routeName
    else true
  }

  /** The plugins in iteration order that pass the filter. */
  function FilterPlugins(plugins: map<string, Plugin>, order: seq<string>, serviceName: string, routeName: string)
    : (r: seq<Plugin>)
    requires forall k | k in order :: k in plugins
    ensures forall x | x in r :: x in plugins.Values && PluginSelected(x, serviceName, routeName)
    decreases |order|
  {
    if order == [] then []
    else
      var init := FilterPlugins(plugins, order[..|order| - 1], serviceName, routeName);
      var x := plugins[order[|order| - 1]];
      if PluginSelected(x, serviceName, routeName) then init + [x] else init
  }

  /** Every entry of the map that passes the filter is listed. */
  lemma {:induction false} FilterRoutesComplete(routes: map<string, Route>, order: seq<string>, serviceName: string,
                                              name: string)
    requires forall k | k in order :: k in routes
    requires name in order && (serviceName == "" || routes[name].serviceName == serviceName)
    ensures routes[name] in FilterRoutes(routes, order, serviceName)
    decreases |order|
  {
    var init := order[..|order| - 1];
    if name != order[|order| - 1] {
      assert name in init by {
        var i :| 0 <= i < |order| && order[i] == name;
        assert init[i] == name;
      }
      FilterRoutesComplete(routes, init, serviceName, name);
    }
  }

  /** Every plugin of the map that passes the filter is listed. */
  lemma {:induction false} FilterPluginsComplete(plugins: map<string, Plugin>, order: seq<string>,
                                               serviceName: string, routeName: string, name: string)
    requires forall k | k in order :: k in plugins
    requires name in order && PluginSelected(plugins[name], serviceName, routeName)
    ensures plugins[name] in FilterPlugins(plugins, order, serviceName, routeName)
    decreases |order|
  {
    var init := order[..|order| - 1];
    if name != order[|order| - 1] {
      assert name in init by {
        var i :| 0 <= i < |order| && order[i] == name;
        assert init[i] == name;
      }
      FilterPluginsComplete(plugins, init, serviceName, routeName, name);
    }
  }

  /** The YAML-backed store over parsed data; reading the file is not part of this model. */
  class Store {
    var data: Data

    constructor (d: Data)
      ensures data == d
    {
      data := d;
    }

    /** A route name resolves through that route's ServiceName; an unknown route or service is not found. */
    function GetService(serviceName: string, routeName: string): (r: Result<Service, StoreError>)
      reads this
      ensures routeName != "" && routeName !in data.routes ==> r == Err(ServiceNotFound)
      ensures r.Err? ==> r.error == ServiceNotFound
      ensures var target := if routeName != "" && routeName in data.routes then data.routes[routeName].serviceName
                            else serviceName;
        (r.Ok? <==> (routeName == "" || routeName in data.routes) && target in data.services)
        && (r.Ok? ==> r.value == data.services[target])
    {
      if routeName != "" && routeName !in data.routes then Err(ServiceNotFound)
      else
        var name := if routeName != "" then data.routes[routeName].serviceName else serviceName;
        if name in data.services then Ok(data.services[name]) else Err(ServiceNotFound)
    }

    /** A route is found when it exists and a non-empty service filter agrees with it. */
    function GetRoute(serviceName: string, routeName: string): (r: Result<Route, StoreError>)
      reads this
      ensures r.Ok? <==> routeName in data.routes && (serviceName == "" || data.routes[routeName].serviceName == serviceName)
      ensures r.Ok? ==> r.value == data.routes[routeName]
      ensures r.Err? ==> r.error == RouteNotFound
    {
      if routeName !in data.routes || (serviceName != "" && data.routes[routeName].serviceName != serviceName) then
        Err(RouteNotFound)
      else Ok(data.routes[routeName])
    }

    /** A plugin is found when it exists and the non-empty service and route filters agree with it. */
    function GetPlugin(serviceName: string, routeName: string, pluginName: string): (r: Result<Plugin, StoreError>)
      reads this
      ensures r.Ok? <==> (pluginName in data.plugins
        && (serviceName == "" || data.plugins[pluginName].serviceName == serviceName)
        && (routeName == "" || data.plugins[pluginName].routeName == routeName))
      ensures r.Ok? ==> r.value == data.plugins[pluginName]
      ensures r.Err? ==> r.error == PluginNotFound
    {
      if pluginName !in data.plugins
         || (serviceName != "" && data.plugins[pluginName].serviceName != serviceName)
         || (routeName != "" && data.plugins[pluginName].routeName != routeName)
      then Err(PluginNotFound)
      else Ok(data.plugins[pluginName])
    }

    /** Upstreams are looked up by service only; naming an upstream is not implemented. */
    function GetUpstream(upstreamName: string, serviceName: string): (r: Result<Opt<Upstream>, StoreError>)
      reads this
      ensures upstreamName != "" ==> r == Err(MethodNotImplemented)
      ensures upstreamName == "" ==> (r.Ok? <==> serviceName in data.services)
      ensures upstreamName == "" && r.Ok? ==> r.value == data.services[serviceName].upstream
      ensures upstreamName == "" && r.Err? ==> r.error == UpstreamNotFound
    {
      if upstreamName != "" then Err(MethodNotImplemented)
      else if serviceName !in data.services then Err(UpstreamNotFound)
      else Ok(data.services[serviceName].upstream)
    }

    /** Every service, in the map's iteration order. */
    method ListServices(order: seq<string>) returns (services: seq<Service>)
      requires Enumerates(order, data.services.Keys)
      ensures |services| == |order| && forall i | 0 <= i < |order| :: services[i] == data.services[order[i]]
    {
      services := [];
      for i := 0 to |order|
        invariant |services| == i && forall k | 0 <= k < i :: services[k] == data.services[order[k]]
      {
        services := services + [data.services[order[i]]];
      }
    }

    /** The upstream of every service, in the map's iteration order. */
    method ListUpstreams(order: seq<string>) returns (upstreams: seq<Opt<Upstream>>)
      requires Enumerates(order, data.services.Keys)
      ensures |upstreams| == |order| && forall i | 0 <= i < |order| :: upstreams[i] == data.services[order[i]].upstream
    {
      upstreams := [];
      for i := 0 to |order|
        invariant |upstreams| == i && forall k | 0 <= k < i :: upstreams[k] == data.services[order[k]].upstream
      {
        upstreams := upstreams + [data.services[order[i]].upstream];
      }
    }

    /** The routes, in iteration order, of the given service, or all of them when it is empty. */
    method ListRoutes(serviceName: string, order: seq<string>) returns (routes: seq<Route>)
      requires Enumerates(order, data.routes.Keys)
      ensures routes == FilterRoutes(data.routes, order, serviceName)
    {
      routes := [];
      for i := 0 to |order|
        invariant routes == FilterRoutes(data.routes, order[..i], serviceName)
      {
        assert order[..i + 1][..i] == order[..i];
        var r := data.routes[order[i]];
        if serviceName != "" {
          if r.serviceName == serviceName {
            routes := routes + [r];
          }
        } else {
          routes := routes + [r];
        }
      }
      assert order[..|order|] == order;
    }

    /** The plugins, in iteration order, selected by the service filter, else the route filter. */
    method ListPlugins(serviceName: string, routeName: string, order: seq<string>) returns (plugins: seq<Plugin>)
      requires Enumerates(order, data.plugins.Keys)
      ensures plugins == FilterPlugins(data.plugins, order, serviceName, routeName)
    {
      plugins := [];
      for i := 0 to |order|
        invariant plugins == FilterPlugins(data.plugins, order[..i], serviceName, routeName)
      {
        assert order[..i + 1][..i] == order[..i];
        var p := data.plugins[order[i]];
        if serviceName != "" {
          if p.serviceName == serviceName {
            plugins := plugins + [p];
          }
        } else if routeName != "" {
          if p.routeName == routeName {
            plugins := plugins + [p];
          }
        } else {
          plugins := plugins + [p];
        }
      }
      assert order[..|order|] == order;
    }

    // The mutators of the YAML store are not implemented: each fails and changes nothing.

    method CreateService(svc: Service) returns (err: StoreError)
      ensures err == MethodNotImplemented
    {
      err := MethodNotImplemented;
    }

    method UpdateService(serviceName: string, routeName: string, svc: Service) returns (err: StoreError)
      ensures err == MethodNotImplemented
    {
      err := MethodNotImplemented;
    }

    method DeleteService(serviceName: string, routeName: string) returns (err: StoreError)
      ensures err == MethodNotImplemented
    {
      err := MethodNotImplemented;
    }

    method CreateRoute(serviceName: string, route: Route) returns (err: StoreError)
      ensures err == MethodNotImplemented
    {
      err := MethodNotImplemented;
    }

    method UpdateRoute(serviceName: string, routeName: string, route: Route) returns (err: StoreError)
      ensures err == MethodNotImplemented
    {
      err := MethodNotImplemented;
    }

    method DeleteRoute(serviceName: string, routeName: string) returns (err: StoreError)
      ensures err == MethodNotImplemented
    {
      err := MethodNotImplemented;
    }

    method CreatePlugin(serviceName: string, routeName: string, p: Plugin) returns (plugin: Opt<Plugin>, err: StoreError)
      ensures plugin.Nil? && err == MethodNotImplemented
    {
      plugin, err := Nil, MethodNotImplemented;
    }

    method UpdatePlugin(serviceName: string, routeName: string, pluginName: string, plugin: Plugin)
      returns (err: StoreError)
      ensures err == MethodNotImplemented
    {
      err := MethodNotImplemented;
    }

    method DeletePlugin(serviceName: string, routeName: string, pluginName: string) returns (err: StoreError)
      ensures err == MethodNotImplemented
    {
      err := MethodNotImplemented;
    }

    method UpdateUpstream(upstreamName: string, serviceName: string, upstream: Upstream) returns (err: StoreError)
      ensures err == MethodNotImplemented
    {
      err := MethodNotImplemented;
    }
  }

  /** Over parsed data, every stored route resolves to its service through GetService. */
  lemma ParsedRoutesResolve(s: Store, c: Content, routeName: string)
    requires s.data == ParseSpec(c) && routeName in s.data.routes && routeName != ""
    ensures s.GetService("", routeName).Ok?
    ensures s.GetService("", routeName).value.name == s.data.routes[routeName].serviceName
  {
    ParsedRoutesHaveServices(c);
    var sname := s.data.routes[routeName].serviceName;
    var svcs := ServiceList(c, |c.services|);
    PutAllFrom(svcs, ServiceKey);
  }
}
