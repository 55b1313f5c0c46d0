// The small route fragments of the olaf route compiler: static responses, URI
// rewrites, header manipulation, third-party plugin handlers and the canary
// key shorthand.
module OlafFragments {
  import opened Wrappers
  import opened GoStrings
  import opened OlafEntity

  /**
   * The foreign parsers the compiler calls, as functions of the input:
   * `pathRegexp` is FindStringSubmatch of `~(\w+)?:\s*(.+)` giving (name, pattern),
   * `parseDuration` is time.ParseDuration in nanoseconds, and `decodeCanary`
   * is the mapstructure decoding of a plugin config.
   */
  datatype Oracles = Oracles(
    pathRegexp: string -> Option<(string, string)>,
    parseDuration: string -> Option<int>,
    decodeCanary: Dict -> Option<CanaryConfig>)

  /** A one-element JSON list holding one object. */
  function One(d: Dict): Value {
    List([Object(d)])
  }

  // --------------------------------------------------------- static response

  /** buildStaticResponse: one static_response handler; optional keys only when set. */
  function BuildStaticResponse(resp: StaticResponse): (r: seq<Dict>)
    ensures |r| == 1
    ensures "handler" in r[0] && r[0]["handler"] == Str("static_response")
    ensures "status_code" in r[0] && r[0]["status_code"] == Int(resp.statusCode)
    ensures "headers" in r[0] <==> |resp.headers| > 0
    ensures "headers" in r[0] ==> r[0]["headers"] == Header(resp.headers)
    ensures "body" in r[0] <==> resp.body != ""
    ensures "body" in r[0] ==> r[0]["body"] == Str(resp.body)
    ensures "close" in r[0] <==> resp.close
    ensures "close" in r[0] ==> r[0]["close"] == Bool(true)
    ensures r[0].Keys <= {"handler", "status_code", "headers", "body", "close"}
  {
    var m0 := map["handler" := Str("static_response"), "status_code" := Int(resp.statusCode)];
    var m1 := if |resp.headers| > 0 then m0["headers" := Header(resp.headers)] else m0;
    var m2 := if resp.body != "" then m1["body" := Str(resp.body)] else m1;
    var m3 := if resp.close then m2["close" := Bool(resp.close)] else m2;
    [m3]
  }

  // -------------------------------------------------------------- URI rewrite

  /** addRouteMatcher: attach the matcher only when both route and matcher are non-empty. */
  function AddRouteMatcher(route: Dict, matcher: Dict): (r: Dict)
    ensures |route| > 0 && |matcher| > 0 ==> r == route["match" := One(matcher)]
    ensures |route| == 0 || |matcher| == 0 ==> r == route
    ensures forall k | k in route && k != "match" :: k in r && r[k] == route[k]
  {
    if |route| > 0 && |matcher| > 0 then route["match" := One(matcher)] else route
  }

  const PathPlaceholder: string := "{http.request.uri.path}"

  /** The rewrite target: TargetPath, or AddPrefix + "$" when only AddPrefix is set. */
  function TargetPath(uri: Uri): (t: string)
    ensures uri.targetPath != "" ==> t == uri.targetPath
    ensures uri.targetPath == "" ==> t == (if uri.addPrefix != "" then uri.addPrefix + "$" else "")
  {
    if uri.targetPath == "" && uri.addPrefix != "" then uri.addPrefix + "$" else uri.targetPath
  }

  /** The strip handler: strip_path_prefix / strip_path_suffix only when set. */
  function StripHandler(uri: Uri): (h: map<string, string>)
    ensures "handler" in h && h["handler"] == "rewrite"
    ensures "strip_path_prefix" in h <==> uri.stripPrefix != ""
    ensures "strip_path_prefix" in h ==> h["strip_path_prefix"] == uri.stripPrefix
    ensures "strip_path_suffix" in h <==> uri.stripSuffix != ""
    ensures "strip_path_suffix" in h ==> h["strip_path_suffix"] == uri.stripSuffix
    ensures h.Keys <= {"handler", "strip_path_prefix", "strip_path_suffix"}
  {
    var h0 := map["handler" := "rewrite"];
    var h1 := if uri.stripPrefix != "" then h0["strip_path_prefix" := uri.stripPrefix] else h0;
    if uri.stripSuffix != "" then h1["strip_path_suffix" := uri.stripSuffix] else h1
  }

  /** The rewrite fragment for a non-empty target, its first `$` replaced by the path placeholder. */
  function RewriteFragment(target: string, matcher: Dict): Dict {
    AddRouteMatcher(
      map["handle" := List([StrMap(map["handler" := "rewrite", "uri" := ReplaceFirst(target, "$", PathPlaceholder)])])],
      matcher)
  }

  /** manipulateURI: the strip fragment (if any) and then the rewrite fragment (if any). */
  function ManipulateUri(uri: Uri, matcher: Dict): (r: seq<Dict>)
    ensures var strip := uri.stripPrefix != "" || uri.stripSuffix != "";
      |r| == (if strip then 1 else 0) + (if TargetPath(uri) != "" then 1 else 0)
      && (strip ==> "handle" in r[0] && r[0]["handle"] == List([StrMap(StripHandler(uri))]))
      && (TargetPath(uri) != "" ==> r[|r| - 1] == RewriteFragment(TargetPath(uri), matcher))
    ensures forall i | 0 <= i < |r| :: ("match" in r[i] <==> |matcher| > 0)
    ensures forall i | 0 <= i < |r| :: "match" in r[i] ==> r[i]["match"] == One(matcher)
  {
    var strip := if uri.stripPrefix != "" || uri.stripSuffix != "" then
      [AddRouteMatcher(map["handle" := List([StrMap(StripHandler(uri))])], matcher)] else [];
    var target := TargetPath(uri);
    strip + (if target != "" then [RewriteFragment(target, matcher)] else [])
  }

  /** The number of occurrences of c in s. */
  function Count(s: string, c: char): nat {
    multiset(s)[c]
  }

  /**
   * Only the first `$` of the target becomes the path placeholder: the text
   * before it has no `$` and is kept, the text after it is kept verbatim.
   */
  lemma RewriteReplacesFirstDollar(target: string)
    requires '$' in target
    ensures var r := ReplaceFirst(target, "$", PathPlaceholder);
      exists i :: 0 <= i < |target| && target[i] == '$' && '$' !in target[..i]
        && r == target[..i] + PathPlaceholder + target[i + 1..]
    ensures Count(ReplaceFirst(target, "$", PathPlaceholder), '$') == Count(target, '$') - 1
  {
    CharIndex(target, '$');
    var i := Index(target, "$");
    assert target[i..i + 1] == "$";
    assert '$' !in target[..i] by {
      forall j | 0 <= j < i ensures target[j] != '$' {
        assert !OccursAt(target, "$", j);
        assert target[j..j + 1] == [target[j]];
      }
    }
    assert target == target[..i] + [target[i]] + target[i + 1..];
    assert '$' !in PathPlaceholder;
    assert multiset(PathPlaceholder)['$'] == 0;
  }

  /** A target without `$` is used as it is. */
  lemma RewriteWithoutDollar(target: string)
    requires '$' !in target
    ensures ReplaceFirst(target, "$", PathPlaceholder) == target
  {
    CharIndex(target, '$');
  }

  // ------------------------------------------------------------------ headers

  /** manipulateHeader: set / add / delete keys only when non-empty. */
  function ManipulateHeader(h: HeaderOps): (m: Dict)
    ensures "set" in m <==> |h.setFields| > 0
    ensures "set" in m ==> m["set"] == Header(h.setFields)
    ensures "add" in m <==> |h.addFields| > 0
    ensures "add" in m ==> m["add"] == Header(h.addFields)
    ensures "delete" in m <==> |h.deleteFields| > 0
    ensures "delete" in m ==> m["delete"] == Strs(h.deleteFields)
    ensures m.Keys <= {"set", "add", "delete"}
  {
    var m0: Dict := map[];
    var m1 := if |h.setFields| > 0 then m0["set" := Header(h.setFields)] else m0;
    var m2 := if |h.addFields| > 0 then m1["add" := Header(h.addFields)] else m1;
    if |h.deleteFields| > 0 then m2["delete" := Strs(h.deleteFields)] else m2
  }

  // ------------------------------------------------------------ plugin route

  /** buildPluginRoute: one handler named by the Type, carrying every Config key. */
  function BuildPluginRoute(p: Plugin): Dict {
    map["handle" := One(map["handler" := Str(p.typ)] + p.config)]
  }

  /**
   * The plugin's handler has exactly the Config keys plus "handler"; every
   * Config value is copied, and "handler" is the Type unless Config sets it.
   */
  lemma PluginRouteHandler(p: Plugin)
    ensures var h := map["handler" := Str(p.typ)] + p.config;
      BuildPluginRoute(p) == map["handle" := One(h)]
      && h.Keys == p.config.Keys + {"handler"}
      && (forall k | k in p.config :: h[k] == p.config[k])
      && ("handler" !in p.config ==> h["handler"] == Str(p.typ))
  { }

  // ------------------------------------------------------------- canary keys

  predicate IsWordChar(c: char) {
    'a' <= c <= 'z' || 'A' <= c <= 'Z' || '0' <= c <= '9' || c == '_'
  }

  /** The length of the run of word characters at the start of s. */
  function WordRun(s: string): (n: nat)
    ensures n <= |s|
    ensures forall i | 0 <= i < n :: IsWordChar(s[i])
    ensures n < |s| ==> !IsWordChar(s[n])
  {
    if s == [] || !IsWordChar(s[0]) then 0 else 1 + WordRun(s[1..])
  }

  /** A shorthand key `{location.name}` after the match of `^\{(\w+)\.(.+)\}$`. */
  datatype KeyVar = KeyVar(location: string, name: string)

  /** A well-formed location and name: word characters, and a name without line breaks. */
  predicate WellFormedKey(location: string, name: string) {
    |location| > 0 && (forall i | 0 <= i < |location| :: IsWordChar(location[i]))
    && |name| > 0 && '\n' !in name
  }

  /** The match of `^\{(\w+)\.(.+)\}$`, whose word group ends at the first non-word character. */
  function MatchKeyVar(s: string): (r: Option<KeyVar>)
    ensures r.Some? ==>
      (WellFormedKey(r.value.location, r.value.name) && s == "{" + r.value.location + "." + r.value.name + "}")
  {
    if |s| < 2 || s[0] != '{' || s[|s| - 1] != '}' then None
    else
      var inner := s[1..|s| - 1];
      var n := WordRun(inner);
      if n == 0 || n >= |inner| || inner[n] != '.' then None
      else
        var name := inner[n + 1..];
        if |name| == 0 || '\n' in name then None
        else
          assert inner == inner[..n] + "." + name;
          Some(KeyVar(inner[..n], name))
  }

  /** Every well-formed `{location.name}` is matched with that location and name. */
  lemma MatchKeyVarComplete(location: string, name: string)
    requires WellFormedKey(location, name)
    ensures MatchKeyVar("{" + location + "." + name + "}") == Some(KeyVar(location, name))
  {
    var s := "{" + location + "." + name + "}";
    var inner := s[1..|s| - 1];
    assert inner == location + "." + name;
    assert inner[|location|] == '.';
    WordRunStops(location, "." + name);
    assert inner[|location| + 1..] == name;
    assert inner[..|location|] == location;
  }

  lemma {:induction false} WordRunStops(w: string, rest: string)
    requires forall i | 0 <= i < |w| :: IsWordChar(w[i])
    requires rest != [] && !IsWordChar(rest[0])
    ensures WordRun(w + rest) == |w|
    decreases |w|
  {
    if w != [] {
      assert (w + rest)[1..] == w[1..] + rest;
      WordRunStops(w[1..], rest);
    }
  }

  /** The placeholder prefix of each recognised location. */
  function LocationPrefix(location: string): Option<string> {
    if location == "path" then Some("uri.path")
    else if location == "query" then Some("uri.query")
    else if location == "header" then Some("header")
    else if location == "cookie" then Some("cookie")
    else if location == "body" then Some("body")
    else None
  }

  /** parseVar: a shorthand key becomes the Caddy placeholder of its location. */
  function ParseVar(s: string, p: Plugin): (r: Result<string, BuildError>)
    ensures MatchKeyVar(s).None? ==> r == Err(InvalidCanaryKey(s, p.name))
    ensures MatchKeyVar(s).Some? && LocationPrefix(MatchKeyVar(s).value.location).None? ==>
      r == Err(UnrecognizedCanaryKey(s, p.name))
    ensures r.Ok? ==>
      (MatchKeyVar(s).Some?
       && var kv := MatchKeyVar(s).value;
          LocationPrefix(kv.location).Some?
          && r.value == "{http.request." + LocationPrefix(kv.location).value + "." + kv.name + "}")
  {
    match MatchKeyVar(s)
    case None => Err(InvalidCanaryKey(s, p.name))
    case Some(kv) =>
      match LocationPrefix(kv.location)
      case None => Err(UnrecognizedCanaryKey(s, p.name))
      case Some(prefix) => Ok("{http.request." + prefix + "." + kv.name + "}")
  }

  /** Every well-formed key of a recognised location becomes that location's placeholder. */
  lemma ParseVarComplete(location: string, name: string, p: Plugin)
    requires WellFormedKey(location, name) && LocationPrefix(location).Some?
    ensures ParseVar("{" + location + "." + name + "}", p)
      == Ok("{http.request." + LocationPrefix(location).value + "." + name + "}")
  {
    MatchKeyVarComplete(location, name);
  }
}
