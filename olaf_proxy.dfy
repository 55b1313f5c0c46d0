// The reverse-proxy and canary fragments of the olaf route compiler.
module OlafProxy {
  import opened Wrappers
  import opened GoStrings
  import opened OlafEntity
  import opened OlafAddress
  import opened OlafFragments

  // ------------------------------------------------------------- durations

  /** A duration setting parsed by time.ParseDuration; a bad one aborts with the setting's name. */
  function ParseField(o: Oracles, text: string, field: string, service: string): (r: Result<int, BuildError>)
    ensures r.Ok? <==> o.parseDuration(text).Some?
    ensures r.Ok? ==> r.value == o.parseDuration(text).value
    ensures r.Err? ==> r.error == BadDuration(field, service)
  {
    match o.parseDuration(text)
    case None => Err(BadDuration(field, service))
    case Some(d) => Ok(d)
  }

  /** The HTTP transport: protocol http, and the dial timeout (zero when unset). */
  function Transport(o: Oracles, service: string, t: TransportHttp): (r: Result<Dict, BuildError>)
    ensures r.Err? <==> t.dialTimeout != "" && o.parseDuration(t.dialTimeout).None?
    ensures r.Err? ==> r.error == BadDuration("upstream.dial_timeout", service)
    ensures r.Ok? ==> r.value.Keys == {"protocol", "dial_timeout"} && r.value["protocol"] == Str("http")
    ensures r.Ok? ==> (r.value["dial_timeout"]
      == Int(if t.dialTimeout == "" then 0 else o.parseDuration(t.dialTimeout).value))
  {
    var timeout :- if t.dialTimeout != "" then ParseField(o, t.dialTimeout, "upstream.dial_timeout", service) else Ok(0);
    Ok(map["protocol" := Str("http"), "dial_timeout" := Int(timeout)])
  }

  /** The load-balancing policy, "random" when unset. */
  function Policy(policy: string): (p: string)
    ensures p != ""
    ensures policy != "" ==> p == policy
  {
    if policy == "" then "random" else policy
  }

  /** Load balancing: the selection policy, and the try duration and interval when set. */
  function LoadBalancer(o: Oracles, service: string, lb: LoadBalancing): (r: Result<Dict, BuildError>)
    ensures r.Err? <==>
      (lb.tryDuration != "" && o.parseDuration(lb.tryDuration).None?)
      || (lb.interval != "" && o.parseDuration(lb.interval).None?)
    ensures lb.tryDuration != "" && o.parseDuration(lb.tryDuration).None? ==>
      r == Err(BadDuration("upstream.lb_try_duration", service))
    ensures r.Err? && r.error != BadDuration("upstream.lb_try_duration", service) ==>
      r == Err(BadDuration("upstream.lb_try_interval", service))
    ensures r.Ok? ==> ("selection_policy" in r.value
      && r.value["selection_policy"] == StrMap(map["policy" := Policy(lb.policy)]))
    ensures r.Ok? ==> (("try_duration" in r.value <==> lb.tryDuration != "")
      && (lb.tryDuration != "" ==> r.value["try_duration"] == Int(o.parseDuration(lb.tryDuration).value)))
    ensures r.Ok? ==> (("interval" in r.value <==> lb.interval != "")
      && (lb.interval != "" ==> r.value["interval"] == Int(o.parseDuration(lb.interval).value)))
    ensures r.Ok? ==> r.value.Keys <= {"selection_policy", "try_duration", "interval"}
  {
    var m0 := map["selection_policy" := StrMap(map["policy" := Policy(lb.policy)])];
    var m1 :- if lb.tryDuration != "" then
        var d :- ParseField(o, lb.tryDuration, "upstream.lb_try_duration", service); Ok(m0["try_duration" := Int(d)])
      else Ok(m0);
    if lb.interval != "" then
      var d :- ParseField(o, lb.interval, "upstream.lb_try_interval", service); Ok(m1["interval" := Int(d)])
    else Ok(m1)
  }

  /** Active health checks: the URI, and port, interval, timeout and expected status when set. */
  function HealthCheck(o: Oracles, service: string, hc: ActiveHealthChecks): (r: Result<Dict, BuildError>)
    ensures r.Err? <==>
      (hc.interval != "" && o.parseDuration(hc.interval).None?)
      || (hc.timeout != "" && o.parseDuration(hc.timeout).None?)
    ensures hc.interval != "" && o.parseDuration(hc.interval).None? ==>
      r == Err(BadDuration("upstream.health_interval", service))
    ensures r.Ok? ==> "uri" in r.value && r.value["uri"] == Str(hc.uri)
    ensures r.Ok? ==> ("port" in r.value <==> hc.port > 0) && (hc.port > 0 ==> r.value["port"] == Int(hc.port))
    ensures r.Ok? ==> (("interval" in r.value <==> hc.interval != "")
      && (hc.interval != "" ==> r.value["interval"] == Int(o.parseDuration(hc.interval).value)))
    ensures r.Ok? ==> (("timeout" in r.value <==> hc.timeout != "")
      && (hc.timeout != "" ==> r.value["timeout"] == Int(o.parseDuration(hc.timeout).value)))
    ensures r.Ok? ==> (("expect_status" in r.value <==> hc.statusCode > 0)
      && (hc.statusCode > 0 ==> r.value["expect_status"] == Int(hc.statusCode)))
    ensures r.Ok? ==> r.value.Keys <= {"uri", "port", "interval", "timeout", "expect_status"}
  {
    var m0 := map["uri" := Str(hc.uri)];
    var m1 := if hc.port > 0 then m0["port" := Int(hc.port)] else m0;
    var m2 :- if hc.interval != "" then
        var d :- ParseField(o, hc.interval, "upstream.health_interval", service); Ok(m1["interval" := Int(d)])
      else Ok(m1);
    var m3 :- if hc.timeout != "" then
        var d :- ParseField(o, hc.timeout, "upstream.health_timeout", service); Ok(m2["timeout" := Int(d)])
      else Ok(m2);
    Ok(if hc.statusCode > 0 then m3["expect_status" := Int(hc.statusCode)] else m3)
  }

  /** Header manipulation: "request" for HeaderUp and "response" for HeaderDown, when present. */
  function ProxyHeaders(u: Upstream): (m: Dict)
    ensures "request" in m <==> u.headerUp.Ptr?
    ensures u.headerUp.Ptr? ==> m["request"] == Object(ManipulateHeader(u.headerUp.val))
    ensures "response" in m <==> u.headerDown.Ptr?
    ensures u.headerDown.Ptr? ==> m["response"] == Object(ManipulateHeader(u.headerDown.val))
    ensures m.Keys <= {"request", "response"}
  {
    var m0: Dict := map[];
    var m1 := if u.headerUp.Ptr? then m0["request" := Object(ManipulateHeader(u.headerUp.val))] else m0;
    if u.headerDown.Ptr? then m1["response" := Object(ManipulateHeader(u.headerDown.val))] else m1
  }

  // -------------------------------------------------------------- upstreams

  /** One dial entry, as a JSON value. */
  function Dial(b: Backend): (r: Result<Value, BuildError>)
    ensures r.Ok? <==> BuildUpstream(b.dial, b.maxRequests).Ok?
    ensures r.Ok? ==> r.value == Object(BuildUpstream(b.dial, b.maxRequests).value)
  {
    var u :- BuildUpstream(b.dial, b.maxRequests);
    Ok(Object(u))
  }

  /** The dial entries of a list of backends, in order; the first bad backend aborts. */
  function BuildUpstreams(bs: seq<Backend>): Result<seq<Value>, BuildError> {
    MapResult(bs, Dial)
  }

  /**
   * The upstream list is built exactly when every backend is valid; it then
   * holds one dial entry per backend, in order, and otherwise fails with the
   * error of the first invalid backend.
   */
  lemma BuildUpstreamsSound(bs: seq<Backend>)
    ensures var r := BuildUpstreams(bs);
      (r.Ok? <==> forall i | 0 <= i < |bs| :: BuildUpstream(bs[i].dial, bs[i].maxRequests).Ok?)
      && (r.Ok? ==> (|r.value| == |bs|
            && forall i | 0 <= i < |bs| :: r.value[i] == Object(BuildUpstream(bs[i].dial, bs[i].maxRequests).value)))
      && (r.Err? ==> exists i | 0 <= i < |bs| :: (BuildUpstream(bs[i].dial, bs[i].maxRequests) == Err(r.error)
            && forall j | 0 <= j < i :: BuildUpstream(bs[j].dial, bs[j].maxRequests).Ok?))
  {
    MapResultOk(bs, Dial);
    if BuildUpstreams(bs).Err? {
      MapResultFirstError(bs, Dial);
      var i :| 0 <= i < |bs| && Dial(bs[i]) == Err(BuildUpstreams(bs).error)
        && forall j | 0 <= j < i :: Dial(bs[j]).Ok?;
      assert BuildUpstream(bs[i].dial, bs[i].maxRequests) == Err(BuildUpstreams(bs).error);
    }
  }

  // ---------------------------------------------------------- reverseProxy

  /** A setting of the handler: absent (Nil), or present with its built value or the error that aborts. */
  type Setting = Opt<Result<Value, BuildError>>

  /** The handler with one optional setting added under `key`; a failing setting aborts. */
  function Put(h: Dict, key: string, v: Setting): (r: Result<Dict, BuildError>)
    ensures v.Nil? ==> r == Ok(h)
    ensures v.Ptr? ==> (r.Ok? <==> v.val.Ok?)
    ensures v.Ptr? && v.val.Err? ==> r == Err(v.val.error)
    ensures v.Ptr? && v.val.Ok? ==> r == Ok(h[key := v.val.value])
  {
    match v
    case Nil => Ok(h)
    case Ptr(x) =>
      var value :- x;
      Ok(h[key := value])
  }

  /**
   * The reverse_proxy handler from the dial entries and the settings, in the
   * order reverseProxy adds them: transport, load balancing, health checks,
   * then the header manipulations when there are any.
   */
  function Assemble(ups: seq<Value>, transport: Setting, lb: Setting, hc: Setting, headers: Dict): Result<Dict, BuildError> {
    var h0 := map["handler" := Str("reverse_proxy"), "upstreams" := List(ups)];
    var h1 :- Put(h0, "transport", transport);
    var h2 :- Put(h1, "load_balancing", lb);
    var h3 :- Put(h2, "health_checks", hc);
    Ok(if |headers| > 0 then h3["headers" := Object(headers)] else h3)
  }

  predicate SettingOk(v: Setting) {
    v.Ptr? ==> v.val.Ok?
  }

  /** The handler is built exactly when every present setting is valid, and the first invalid one aborts. */
  lemma AssembleErrors(ups: seq<Value>, transport: Setting, lb: Setting, hc: Setting, headers: Dict)
    ensures var r := Assemble(ups, transport, lb, hc, headers);
      (r.Ok? <==> SettingOk(transport) && SettingOk(lb) && SettingOk(hc))
      && (!SettingOk(transport) ==> r == Err(transport.val.error))
      && (SettingOk(transport) && !SettingOk(lb) ==> r == Err(lb.val.error))
      && (SettingOk(transport) && SettingOk(lb) && !SettingOk(hc) ==> r == Err(hc.val.error))
  { }

  /** Each optional key of the handler is there exactly when its setting is, and no other key is. */
  lemma AssembleKeys(ups: seq<Value>, transport: Setting, lb: Setting, hc: Setting, headers: Dict)
    requires Assemble(ups, transport, lb, hc, headers).Ok?
    ensures var h := Assemble(ups, transport, lb, hc, headers).value;
      ("transport" in h <==> transport.Ptr?)
      && ("load_balancing" in h <==> lb.Ptr?)
      && ("health_checks" in h <==> hc.Ptr?)
      && ("headers" in h <==> |headers| > 0)
      && h.Keys <= {"handler", "upstreams", "transport", "load_balancing", "health_checks", "headers"}
  { }

  /** The handler and upstream keys are always there, and each setting's key holds its built value. */
  lemma AssembleValues(ups: seq<Value>, transport: Setting, lb: Setting, hc: Setting, headers: Dict)
    requires Assemble(ups, transport, lb, hc, headers).Ok?
    ensures var h := Assemble(ups, transport, lb, hc, headers).value;
      "handler" in h && h["handler"] == Str("reverse_proxy") && "upstreams" in h && h["upstreams"] == List(ups)
      && (transport.Ptr? ==> "transport" in h && h["transport"] == transport.val.value)
      && (lb.Ptr? ==> "load_balancing" in h && h["load_balancing"] == lb.val.value)
      && (hc.Ptr? ==> "health_checks" in h && h["health_checks"] == hc.val.value)
      && (|headers| > 0 ==> "headers" in h && h["headers"] == Object(headers))
  { }

  /** The transport setting of an upstream. */
  function TransportSetting(o: Oracles, service: string, http: Opt<TransportHttp>): (v: Setting)
    ensures v.Ptr? <==> http.Ptr?
    ensures v.Ptr? ==> ((v.val.Ok? <==> Transport(o, service, http.val).Ok?)
      && (v.val.Err? ==> v.val.error == Transport(o, service, http.val).error)
      && (v.val.Ok? ==> v.val.value == Object(Transport(o, service, http.val).value)))
  {
    if http.Nil? then Nil
    else Ptr(var t :- Transport(o, service, http.val); Ok(Object(t)))
  }

  /** The load-balancing setting of an upstream. */
  function LoadBalancingSetting(o: Oracles, service: string, lb: Opt<LoadBalancing>): (v: Setting)
    ensures v.Ptr? <==> lb.Ptr?
    ensures v.Ptr? ==> ((v.val.Ok? <==> LoadBalancer(o, service, lb.val).Ok?)
      && (v.val.Err? ==> v.val.error == LoadBalancer(o, service, lb.val).error)
      && (v.val.Ok? ==> v.val.value == Object(LoadBalancer(o, service, lb.val).value)))
  {
    if lb.Nil? then Nil
    else Ptr(var l :- LoadBalancer(o, service, lb.val); Ok(Object(l)))
  }

  /** The health-check setting of an upstream: its active checks under "active". */
  function HealthCheckSetting(o: Oracles, service: string, hc: Opt<ActiveHealthChecks>): (v: Setting)
    ensures v.Ptr? <==> hc.Ptr?
    ensures v.Ptr? ==> ((v.val.Ok? <==> HealthCheck(o, service, hc.val).Ok?)
      && (v.val.Err? ==> v.val.error == HealthCheck(o, service, hc.val).error)
      && (v.val.Ok? ==> v.val.value == Object(map["active" := Object(HealthCheck(o, service, hc.val).value)])))
  {
    if hc.Nil? then Nil
    else Ptr(var c :- HealthCheck(o, service, hc.val); Ok(Object(map["active" := Object(c)])))
  }

  /** The headers are there exactly when HeaderUp or HeaderDown is set. */
  lemma ProxyHeadersPresent(u: Upstream)
    ensures |ProxyHeaders(u)| > 0 <==> u.headerUp.Ptr? || u.headerDown.Ptr?
  {
    var headers := ProxyHeaders(u);
    if u.headerUp.Ptr? { assert "request" in headers; }
    if u.headerDown.Ptr? { assert "response" in headers; }
  }

  /** The reverse_proxy handler over already built dial entries. */
  function ProxyHandler(o: Oracles, service: string, u: Upstream, ups: seq<Value>): Result<Dict, BuildError> {
    Assemble(ups, TransportSetting(o, service, u.http), LoadBalancingSetting(o, service, u.loadBalancing),
      HealthCheckSetting(o, service, u.activeHealthChecks), ProxyHeaders(u))
  }

  /** The reverse_proxy handler of a service's upstream; the first failing step aborts. */
  function ProxyHandle(o: Oracles, s: Service): Result<Dict, BuildError> {
    if s.upstream.Nil? then Err(NoUpstream(s.name))
    else if |s.upstream.val.backends| == 0 then Err(NoBackends(s.name))
    else
      var ups :- BuildUpstreams(s.upstream.val.backends);
      ProxyHandler(o, s.name, s.upstream.val, ups)
  }

  /** A missing upstream, then an empty backend list, then the first bad backend abort, before any setting. */
  lemma ProxyHandleErrors(o: Oracles, s: Service)
    ensures s.upstream.Nil? ==> ProxyHandle(o, s) == Err(NoUpstream(s.name))
    ensures s.upstream.Ptr? && |s.upstream.val.backends| == 0 ==> ProxyHandle(o, s) == Err(NoBackends(s.name))
    ensures s.upstream.Ptr? && |s.upstream.val.backends| > 0 && BuildUpstreams(s.upstream.val.backends).Err? ==>
      ProxyHandle(o, s) == Err(BuildUpstreams(s.upstream.val.backends).error)
    ensures s.upstream.Ptr? && |s.upstream.val.backends| > 0 && BuildUpstreams(s.upstream.val.backends).Ok? ==>
      ProxyHandle(o, s) == ProxyHandler(o, s.name, s.upstream.val, BuildUpstreams(s.upstream.val.backends).value)
  { }

  /**
   * A built handler has a transport, load-balancing, health-check or headers
   * key exactly when the upstream configures that setting, and no other key
   * besides the handler name and the dial entries.
   */
  lemma ProxyHandlerKeys(o: Oracles, service: string, u: Upstream, ups: seq<Value>)
    requires ProxyHandler(o, service, u, ups).Ok?
    ensures var h := ProxyHandler(o, service, u, ups).value;
      ("transport" in h <==> u.http.Ptr?)
      && ("load_balancing" in h <==> u.loadBalancing.Ptr?)
      && ("health_checks" in h <==> u.activeHealthChecks.Ptr?)
      && ("headers" in h <==> u.headerUp.Ptr? || u.headerDown.Ptr?)
      && h.Keys <= {"handler", "upstreams", "transport", "load_balancing", "health_checks", "headers"}
  {
    AssembleKeys(ups, TransportSetting(o, service, u.http), LoadBalancingSetting(o, service, u.loadBalancing),
      HealthCheckSetting(o, service, u.activeHealthChecks), ProxyHeaders(u));
    ProxyHeadersPresent(u);
  }

  /** A built handler is a reverse_proxy over the dial entries, and each configured setting holds its built value. */
  lemma ProxyHandlerValues(o: Oracles, service: string, u: Upstream, ups: seq<Value>)
    requires ProxyHandler(o, service, u, ups).Ok?
    ensures var h := ProxyHandler(o, service, u, ups).value;
      "handler" in h && h["handler"] == Str("reverse_proxy") && "upstreams" in h && h["upstreams"] == List(ups)
      && (u.http.Ptr? ==> "transport" in h && h["transport"] == Object(Transport(o, service, u.http.val).value))
      && (u.loadBalancing.Ptr? ==> ("load_balancing" in h
            && h["load_balancing"] == Object(LoadBalancer(o, service, u.loadBalancing.val).value)))
      && (u.activeHealthChecks.Ptr? ==> ("health_checks" in h
            && h["health_checks"] == Object(map["active" := Object(HealthCheck(o, service, u.activeHealthChecks.val).value)])))
      && (u.headerUp.Ptr? || u.headerDown.Ptr? ==> "headers" in h && h["headers"] == Object(ProxyHeaders(u)))
  {
    AssembleValues(ups, TransportSetting(o, service, u.http), LoadBalancingSetting(o, service, u.loadBalancing),
      HealthCheckSetting(o, service, u.activeHealthChecks), ProxyHeaders(u));
    ProxyHeadersPresent(u);
  }

  /** The handler is built exactly when every configured setting is valid; the first invalid one aborts. */
  lemma ProxyHandlerErrors(o: Oracles, service: string, u: Upstream, ups: seq<Value>)
    ensures var r := ProxyHandler(o, service, u, ups);
      var t := u.http.Ptr? && Transport(o, service, u.http.val).Err?;
      var l := u.loadBalancing.Ptr? && LoadBalancer(o, service, u.loadBalancing.val).Err?;
      var c := u.activeHealthChecks.Ptr? && HealthCheck(o, service, u.activeHealthChecks.val).Err?;
      (r.Ok? <==> !t && !l && !c)
      && (t ==> r == Err(Transport(o, service, u.http.val).error))
      && (!t && l ==> r == Err(LoadBalancer(o, service, u.loadBalancing.val).error))
      && (!t && !l && c ==> r == Err(HealthCheck(o, service, u.activeHealthChecks.val).error))
  {
    AssembleErrors(ups, TransportSetting(o, service, u.http), LoadBalancingSetting(o, service, u.loadBalancing),
      HealthCheckSetting(o, service, u.activeHealthChecks), ProxyHeaders(u));
  }

  /** reverseProxy: one route holding the handler, matched by `matcher` when it is non-empty. */
  function ReverseProxyRoute(o: Oracles, s: Service, matcher: Dict): (r: Result<Dict, BuildError>)
    ensures r.Ok? <==> ProxyHandle(o, s).Ok?
    ensures r.Err? ==> r.error == ProxyHandle(o, s).error
    ensures r.Ok? ==> "handle" in r.value && r.value["handle"] == One(ProxyHandle(o, s).value)
    ensures r.Ok? ==> (("match" in r.value <==> |matcher| > 0)
      && (|matcher| > 0 ==> r.value["match"] == One(matcher))
      && r.value.Keys <= {"handle", "match"})
  {
    var h :- ProxyHandle(o, s);
    var route := map["handle" := One(h)];
    Ok(if |matcher| > 0 then route["match" := One(matcher)] else route)
  }

  /** reverseProxy, building the handler map and the upstream list step by step. */
  method ReverseProxy(o: Oracles, s: Service, matcher: Dict) returns (res: Result<Dict, BuildError>)
    ensures res == ReverseProxyRoute(o, s, matcher)
  {
    if s.upstream.Nil? {
      return Err(NoUpstream(s.name));
    }
    var u := s.upstream.val;
    if |u.backends| == 0 {
      return Err(NoBackends(s.name));
    }
    var ups := DialAll(u.backends);
    if ups.Err? {
      return Err(ups.error);
    }
    var handle := BuildHandler(o, s.name, u, ups.value);
    if handle.Err? {
      return Err(handle.error);
    }
    var route := map["handle" := One(handle.value)];
    if |matcher| > 0 {
      route := route["match" := One(matcher)];
    }
    return Ok(route);
  }

  /** The handler map of reverseProxy, updated setting by setting. */
  method BuildHandler(o: Oracles, service: string, u: Upstream, ups: seq<Value>) returns (res: Result<Dict, BuildError>)
    ensures res == ProxyHandler(o, service, u, ups)
  {
    var handle: Dict := map["handler" := Str("reverse_proxy"), "upstreams" := List(ups)];
    ghost var h0 := handle;
    if u.http.Ptr? {
      var t := Transport(o, service, u.http.val);
      if t.Err? {
        return Err(t.error);
      }
      handle := handle["transport" := Object(t.value)];
    }
    assert Put(h0, "transport", TransportSetting(o, service, u.http)) == Ok(handle);
    ghost var h1 := handle;
    if u.loadBalancing.Ptr? {
      var lb := LoadBalancer(o, service, u.loadBalancing.val);
      if lb.Err? {
        return Err(lb.error);
      }
      handle := handle["load_balancing" := Object(lb.value)];
    }
    assert Put(h1, "load_balancing", LoadBalancingSetting(o, service, u.loadBalancing)) == Ok(handle);
    ghost var h2 := handle;
    if u.activeHealthChecks.Ptr? {
      var hc := HealthCheck(o, service, u.activeHealthChecks.val);
      if hc.Err? {
        return Err(hc.error);
      }
      handle := handle["health_checks" := Object(map["active" := Object(hc.value)])];
    }
    assert Put(h2, "health_checks", HealthCheckSetting(o, service, u.activeHealthChecks)) == Ok(handle);
    var headers := ProxyHeaders(u);
    if |headers| > 0 {
      handle := handle["headers" := Object(headers)];
    }
    return Ok(handle);
  }

  /** The dial entries of the backends, one loop step per backend. */
  method DialAll(bs: seq<Backend>) returns (res: Result<seq<Value>, BuildError>)
    ensures res == BuildUpstreams(bs)
  {
    var upstreams: seq<Value> := [];
    var i := 0;
    while i < |bs|
      invariant 0 <= i <= |bs|
      invariant BuildUpstreams(bs[..i]) == Ok(upstreams)
    {
      assert bs[..i + 1][..i] == bs[..i];
      var up := Dial(bs[i]);
      if up.Err? {
        MapResultPrefixErr(bs, Dial, i + 1);
        return Err(up.error);
      }
      upstreams := upstreams + [up.value];
      i := i + 1;
    }
    assert bs[..i] == bs;
    return Ok(upstreams);
  }

  /** Every backend contributes its own dial entry, in backend order. */
  lemma ProxyDialsEveryBackend(o: Oracles, s: Service, matcher: Dict)
    requires ReverseProxyRoute(o, s, matcher).Ok?
    ensures var u := s.upstream.val; var h := ProxyHandle(o, s).value;
      s.upstream.Ptr? && |u.backends| > 0
      && exists ups: seq<Value> :: (h["upstreams"] == List(ups) && |ups| == |u.backends|
        && forall i | 0 <= i < |ups| :: (BuildUpstream(u.backends[i].dial, u.backends[i].maxRequests).Ok?
          && ups[i] == Object(BuildUpstream(u.backends[i].dial, u.backends[i].maxRequests).value)))
  {
    var u := s.upstream.val;
    ProxyHandleErrors(o, s);
    ProxyHandlerValues(o, s.name, u, BuildUpstreams(u.backends).value);
    BuildUpstreamsSound(u.backends);
    var ups := BuildUpstreams(u.backends).value;
    assert ProxyHandle(o, s).value["upstreams"] == List(ups);
  }

  // ----------------------------------------------------------------- canary

  /** The key expression: the placeholder of the key, wrapped as `type(var)` when a type is set. */
  function CanaryKey(c: CanaryConfig, p: Plugin): (r: Result<string, BuildError>)
    ensures r.Ok? <==> ParseVar(c.keyName, p).Ok?
    ensures r.Err? ==> r.error == ParseVar(c.keyName, p).error
    ensures r.Ok? && c.keyType == "" ==> r.value == ParseVar(c.keyName, p).value
    ensures r.Ok? && c.keyType != "" ==> r.value == c.keyType + "(" + ParseVar(c.keyName, p).value + ")"
  {
    var keyVar :- ParseVar(c.keyName, p);
    Ok(if c.keyType != "" then c.keyType + "(" + keyVar + ")" else keyVar)
  }

  /**
   * The matcher of a canary plugin's routes: the advanced matcher, which then
   * excludes key, type and whitelist; or a CEL `expression`, the whitelist with
   * every `$` replaced by the key expression.
   */
  function CanaryMatcher(c: CanaryConfig, p: Plugin): (r: Result<Dict, BuildError>)
    ensures |c.matcher| > 0 ==>
      r == (if c.keyName != "" || c.keyType != "" || c.whitelist != "" then Err(CanaryMatcherExclusive(p.name))
            else Ok(c.matcher))
    ensures |c.matcher| == 0 && CanaryKey(c, p).Err? ==> r == Err(CanaryKey(c, p).error)
    ensures |c.matcher| == 0 && CanaryKey(c, p).Ok? && c.whitelist == "" ==> r == Err(EmptyWhitelist(p.name))
    ensures |c.matcher| == 0 && r.Ok? ==>
      CanaryKey(c, p).Ok? && c.whitelist != ""
      && r.value == map["expression" := Str(ReplaceAll(c.whitelist, "$", CanaryKey(c, p).value))]
    ensures r.Ok? ==> |r.value| > 0
  {
    if |c.matcher| > 0 then
      if c.keyName != "" || c.keyType != "" || c.whitelist != "" then Err(CanaryMatcherExclusive(p.name))
      else Ok(c.matcher)
    else
      var key :- CanaryKey(c, p);
      if c.whitelist == "" then Err(EmptyWhitelist(p.name))
      else Ok(map["expression" := Str(ReplaceAll(c.whitelist, "$", key))])
  }

  /** canaryReverseProxy: the URI fragments and then the proxy to the canary upstream, all under one matcher. */
  function Canary(o: Oracles, p: Plugin, services: map<string, Service>): (r: Result<seq<Dict>, BuildError>)
    ensures p.typ != PluginTypeCanary ==> r == Ok([])
    ensures p.typ == PluginTypeCanary && o.decodeCanary(p.config).None? ==> r == Err(CanaryConfigUndecodable(p.name))
    ensures (p.typ == PluginTypeCanary && o.decodeCanary(p.config).Some?
      && o.decodeCanary(p.config).value.upstreamServiceName !in services) ==>
      r == Err(CanaryUpstreamNotFound(o.decodeCanary(p.config).value.upstreamServiceName, p.name))
    ensures (p.typ == PluginTypeCanary && o.decodeCanary(p.config).Some?
      && o.decodeCanary(p.config).value.upstreamServiceName in services) ==>
      r == CanaryRoutes(o, p, o.decodeCanary(p.config).value, services[o.decodeCanary(p.config).value.upstreamServiceName])
  {
    if p.typ != PluginTypeCanary then Ok([])
    else
      match o.decodeCanary(p.config)
      case None => Err(CanaryConfigUndecodable(p.name))
      case Some(c) =>
        if c.upstreamServiceName !in services then Err(CanaryUpstreamNotFound(c.upstreamServiceName, p.name))
        else CanaryRoutes(o, p, c, services[c.upstreamServiceName])
  }

  /** The routes of a decoded canary config whose upstream service is `target`. */
  function CanaryRoutes(o: Oracles, p: Plugin, c: CanaryConfig, target: Service): Result<seq<Dict>, BuildError> {
    var m :- CanaryMatcher(c, p);
    var proxy :- ReverseProxyRoute(o, target, m);
    Ok(ManipulateUri(c.uri, m) + [proxy])
  }

  /**
   * Successful canary routes are the URI fragments of the config followed by
   * the proxy to the target service, and every one of them carries the same
   * non-empty matcher.
   */
  lemma CanaryRoutesShareMatcher(o: Oracles, p: Plugin, c: CanaryConfig, target: Service)
    requires CanaryRoutes(o, p, c, target).Ok?
    ensures var r := CanaryRoutes(o, p, c, target).value;
      CanaryMatcher(c, p).Ok? && ReverseProxyRoute(o, target, CanaryMatcher(c, p).value).Ok?
      && var m := CanaryMatcher(c, p).value;
         |m| > 0 && |r| >= 1
         && r[..|r| - 1] == ManipulateUri(c.uri, m)
         && r[|r| - 1] == ReverseProxyRoute(o, target, m).value
         && forall i | 0 <= i < |r| :: "match" in r[i] && r[i]["match"] == One(m)
  {
    var m := CanaryMatcher(c, p).value;
    var r := CanaryRoutes(o, p, c, target).value;
    var u := ManipulateUri(c.uri, m);
    CanaryRoutesValue(o, p, c, target);
    var proxy := ReverseProxyRoute(o, target, m).value;
    assert r[..|r| - 1] == u;
    AppendSharesMatch(u, proxy, m);
  }

  /** Successful canary routes are the URI fragments of the config followed by the proxy. */
  lemma CanaryRoutesValue(o: Oracles, p: Plugin, c: CanaryConfig, target: Service)
    requires CanaryRoutes(o, p, c, target).Ok?
    ensures CanaryMatcher(c, p).Ok? && ReverseProxyRoute(o, target, CanaryMatcher(c, p).value).Ok?
      && CanaryRoutes(o, p, c, target).value
         == ManipulateUri(c.uri, CanaryMatcher(c, p).value) + [ReverseProxyRoute(o, target, CanaryMatcher(c, p).value).value]
  { }

  /** Appending a route with matcher m to routes that all carry m keeps every route carrying m. */
  lemma AppendSharesMatch(u: seq<Dict>, proxy: Dict, m: Dict)
    requires forall i | 0 <= i < |u| :: ("match" in u[i] <==> |m| > 0)
    requires forall i | 0 <= i < |u| :: "match" in u[i] ==> u[i]["match"] == One(m)
    requires |m| > 0 && "match" in proxy && proxy["match"] == One(m)
    ensures var r := u + [proxy]; forall i | 0 <= i < |r| :: "match" in r[i] && r[i]["match"] == One(m)
  {
    var r := u + [proxy];
    forall i | 0 <= i < |r| ensures "match" in r[i] && r[i]["match"] == One(m) {
      if i < |u| { assert r[i] == u[i]; }
    }
  }

  /**
   * A successful canary expansion is the URI fragments of the canary config
   * followed by the proxy to the canary's upstream service, and every one of
   * them carries the same non-empty matcher.
   */
  lemma CanarySharesMatcher(o: Oracles, p: Plugin, services: map<string, Service>)
    requires p.typ == PluginTypeCanary && Canary(o, p, services).Ok?
    ensures var c := o.decodeCanary(p.config).value; var r := Canary(o, p, services).value;
      o.decodeCanary(p.config).Some? && c.upstreamServiceName in services && CanaryMatcher(c, p).Ok?
      && var m := CanaryMatcher(c, p).value;
         |m| > 0 && |r| >= 1
         && r[..|r| - 1] == ManipulateUri(c.uri, m)
         && r[|r| - 1] == ReverseProxyRoute(o, services[c.upstreamServiceName], m).value
         && forall i | 0 <= i < |r| :: "match" in r[i] && r[i]["match"] == One(m)
  {
    var c := o.decodeCanary(p.config).value;
    CanaryRoutesShareMatcher(o, p, c, services[c.upstreamServiceName]);
  }

  /**
   * With a key and whitelist free of `$`, the expression matcher keeps no `$`:
   * every occurrence in the whitelist was replaced by the key expression.
   */
  lemma CanaryExpressionReplacesEveryDollar(c: CanaryConfig, p: Plugin)
    requires |c.matcher| == 0 && CanaryMatcher(c, p).Ok?
    requires '$' !in c.keyName && '$' !in c.keyType
    ensures var e := CanaryMatcher(c, p).value["expression"];
      e.Str? && '$' !in e.s
  {
    var kv := MatchKeyVar(c.keyName).value;
    var prefix := LocationPrefix(kv.location).value;
    assert c.keyName == "{" + kv.location + "." + kv.name + "}";
    assert '$' !in kv.name by {
      forall j | 0 <= j < |kv.name| ensures kv.name[j] != '$' {
        assert kv.name[j] == c.keyName[|kv.location| + 2 + j];
      }
    }
    var keyVar := ParseVar(c.keyName, p).value;
    assert keyVar == "{http.request." + prefix + "." + kv.name + "}";
    assert '$' !in prefix;
    assert '$' !in keyVar;
    var key := CanaryKey(c, p).value;
    assert '$' !in key;
    ReplaceAllCharRemoves(c.whitelist, '$', key);
  }
}
