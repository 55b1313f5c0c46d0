// The olaf data model: services, routes and plugins as plain values, plus the
// JSON-like value that the route compiler emits and that plugin configs hold.
module OlafEntity {

  /** A value of the JSON documents the route compiler builds (`interface{}` in Go). */
  datatype Value =
    | Str(s: string)
    | Int(i: int)
    | Bool(b: bool)
    | Strs(ss: seq<string>)
    | StrMap(sm: map<string, string>)
    | Header(h: map<string, seq<string>>)
    | List(items: seq<Value>)
    | Object(d: map<string, Value>)

  /** A JSON object (`map[string]interface{}` in Go). */
  type Dict = map<string, Value>

  datatype Backend = Backend(dial: string, maxRequests: int)

  datatype TransportHttp = TransportHttp(dialTimeout: string)

  datatype LoadBalancing = LoadBalancing(policy: string, tryDuration: string, interval: string)

  datatype ActiveHealthChecks = ActiveHealthChecks(
    uri: string, port: int, interval: string, timeout: string, statusCode: int)

  /** Header manipulations. */
  datatype HeaderOps = HeaderOps(
    setFields: map<string, seq<string>>, addFields: map<string, seq<string>>, deleteFields: seq<string>)

  /** An optional field (a Go *T): `Nil` is Go's nil. */
  datatype Opt<T> = Nil | Ptr(val: T)

  datatype Upstream = Upstream(
    backends: seq<Backend>,
    http: Opt<TransportHttp>,
    loadBalancing: Opt<LoadBalancing>,
    activeHealthChecks: Opt<ActiveHealthChecks>,
    headerUp: Opt<HeaderOps>,
    headerDown: Opt<HeaderOps>)

  datatype Service = Service(name: string, upstream: Opt<Upstream>)

  /** Matching rules for a route. */
  datatype Matcher = Matcher(
    protocol: string, methods: seq<string>, hosts: seq<string>, paths: seq<string>,
    headers: map<string, seq<string>>)

  /** URI manipulations for a route. */
  datatype Uri = Uri(stripPrefix: string, stripSuffix: string, targetPath: string, addPrefix: string)

  datatype StaticResponse = StaticResponse(
    statusCode: int, headers: map<string, seq<string>>, body: string, close: bool)

  /** A route; the float64 priority is modelled by an integer with the same order. */
  datatype Route = Route(
    serviceName: string, name: string, matcher: Matcher, uri: Uri,
    response: Opt<StaticResponse>, priority: int)

  datatype Plugin = Plugin(
    disabled: bool, name: string, typ: string, orderAfter: string, config: Dict,
    routeName: string, serviceName: string)

  /** The config of the built-in canary plugin once decoded from a plugin's Config. */
  datatype CanaryConfig = CanaryConfig(
    upstreamServiceName: string, keyName: string, keyType: string, whitelist: string,
    matcher: Dict, uri: Uri)

  datatype Data = Data(
    version: string, services: map<string, Service>, routes: map<string, Route>,
    plugins: map<string, Plugin>)

  const PluginTypeCanary: string := "canary"

  /** The errors of the store. */
  datatype StoreError =
    | ServiceNotFound
    | RouteNotFound
    | PluginNotFound
    | UpstreamNotFound
    | MethodNotImplemented

  /** The reasons for which the route compiler panics; each aborts the whole build. */
  datatype BuildError =
    | RouteServiceNotFound(route: string, service: string)
    | CircularOrder(plugin: string, typ: string)
    | OrderAfterNotFound(orderAfter: string, plugin: string)
    | Unordered(plugin: string, typ: string)
    | CanaryConfigUndecodable(plugin: string)
    | CanaryUpstreamNotFound(upstream: string, plugin: string)
    | CanaryMatcherExclusive(plugin: string)
    | InvalidCanaryKey(key: string, plugin: string)
    | UnrecognizedCanaryKey(key: string, plugin: string)
    | EmptyWhitelist(plugin: string)
    | NoUpstream(service: string)
    | NoBackends(service: string)
    | BadDuration(field: string, service: string)
    | InvalidTcpAddress(addr: string)
    | UnsupportedUdpAddress(addr: string)
    | InvalidUnixAddress(addr: string)
}
