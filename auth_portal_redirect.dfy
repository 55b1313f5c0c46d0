// The URL helpers of the authentication portal (caddy-auth-portal,
// pkg/utils/redirect.go): the externally visible base URL of a request, as the
// X-Forwarded-* headers or the connection give it, and paths derived from it.
module AuthPortalRedirect {
  import opened GoStrings

  /** The parts of an http.Request the helpers read: the request headers by
      canonical name, the Host, the URL path, and whether it came over TLS. */
  datatype Request = Request(header: map<string, seq<string>>, host: string, path: string, tls: bool)

  /** Header.Get: the first value stored under the name, or "". */
  function HeaderGet(h: map<string, seq<string>>, name: string): (v: string)
    ensures name in h && |h[name]| > 0 ==> v == h[name][0]
    ensures !(name in h && |h[name]| > 0) ==> v == ""
  {
    if name in h && |h[name]| > 0 then h[name][0] else ""
  }

  /** The host of the base URL: X-Forwarded-Host when given, else the Host. */
  function ForwardedHost(r: Request): string {
    var h := HeaderGet(r.header, "X-Forwarded-Host");
    if h == "" then r.host else h
  }

  /** The scheme of the base URL: X-Forwarded-Proto when given, else https on a
      TLS connection and http otherwise. */
  function ForwardedProto(r: Request): string {
    var p := HeaderGet(r.header, "X-Forwarded-Proto");
    if p != "" then p else if r.tls then "https" else "http"
  }

  /** X-Forwarded-Port is left out of the URL when absent or the default port of
      the scheme. */
  predicate PortOmitted(proto: string, port: string) {
    port == "" || (port == "443" && proto == "https") || (port == "80" && proto == "http")
  }

  /** GetCurrentBaseURL. */
  function CurrentBaseURL(r: Request): (u: string)
    ensures var head := ForwardedProto(r) + "://" + ForwardedHost(r);
            var port := HeaderGet(r.header, "X-Forwarded-Port");
            u == head + (if PortOmitted(ForwardedProto(r), port) then "" else ":" + port)
  {
    var redirHost := HeaderGet(r.header, "X-Forwarded-Host");
    var host := if redirHost == "" then r.host else redirHost;
    var redirProto := HeaderGet(r.header, "X-Forwarded-Proto");
    var proto := if redirProto == "" then (if r.tls then "https" else "http") else redirProto;
    var port := HeaderGet(r.header, "X-Forwarded-Port");
    var base := proto + "://" + host;
    if port == "" then base
    else if port == "443" then (if proto != "https" then base + ":" + port else base)
    else if port == "80" then (if proto != "http" then base + ":" + port else base)
    else base + ":" + port
  }

  /** The forwarded headers win over the Host and the connection. */
  lemma ForwardedHeadersWin(r: Request, host: string, proto: string)
    requires host != "" && proto != ""
    ensures var r' := r.(header := r.header["X-Forwarded-Host" := [host]]["X-Forwarded-Proto" := [proto]]);
            ForwardedHost(r') == host && ForwardedProto(r') == proto
  {
  }

  /** Forwarding a scheme's default port gives the same URL as forwarding no port. */
  lemma DefaultPortIsDropped(r: Request, port: string)
    requires (port == "443" && ForwardedProto(r) == "https") || (port == "80" && ForwardedProto(r) == "http")
    ensures CurrentBaseURL(r.(header := r.header["X-Forwarded-Port" := [port]]))
              == CurrentBaseURL(r.(header := r.header - {"X-Forwarded-Port"}))
  {
    var r1 := r.(header := r.header["X-Forwarded-Port" := [port]]);
    var r2 := r.(header := r.header - {"X-Forwarded-Port"});
    assert HeaderGet(r1.header, "X-Forwarded-Proto") == HeaderGet(r.header, "X-Forwarded-Proto");
    assert HeaderGet(r2.header, "X-Forwarded-Proto") == HeaderGet(r.header, "X-Forwarded-Proto");
    assert HeaderGet(r1.header, "X-Forwarded-Host") == HeaderGet(r.header, "X-Forwarded-Host");
    assert HeaderGet(r2.header, "X-Forwarded-Host") == HeaderGet(r.header, "X-Forwarded-Host");
  }

  /** The base path GetBaseURL picks: the path up to the first occurrence of the
      first token, from position k on, that occurs in it; the whole path when
      none does. */
  function BasePath(path: string, tokens: seq<string>, k: nat): (b: string)
    ensures HasPrefix(path, b)
    decreases |tokens| - k
  {
    if k >= |tokens| then path
    else if Index(path, tokens[k]) >= 0 then path[..Index(path, tokens[k])]
    else BasePath(path, tokens, k + 1)
  }

  /** The first token that occurs decides; the ones after it are not looked at. */
  lemma {:induction false} BasePathFirstMatch(path: string, tokens: seq<string>, k: nat)
    requires k < |tokens| && Index(path, tokens[k]) >= 0
    requires forall j | 0 <= j < k :: Index(path, tokens[j]) < 0
    ensures BasePath(path, tokens, 0) == path[..Index(path, tokens[k])]
  {
    BasePathSkips(path, tokens, 0, k);
  }

  lemma {:induction false} BasePathSkips(path: string, tokens: seq<string>, i: nat, k: nat)
    requires i <= k <= |tokens|
    requires forall j | i <= j < k :: Index(path, tokens[j]) < 0
    ensures BasePath(path, tokens, i) == BasePath(path, tokens, k)
    decreases k - i
  {
    if i < k {
      BasePathSkips(path, tokens, i + 1, k);
    }
  }

  /** With no token occurring the base path is the whole path. */
  lemma BasePathNoMatch(path: string, tokens: seq<string>)
    requires forall j | 0 <= j < |tokens| :: Index(path, tokens[j]) < 0
    ensures BasePath(path, tokens, 0) == path
  {
    BasePathSkips(path, tokens, 0, |tokens|);
  }

  /** An empty token occurs at position 0, so it gives the empty base path. */
  lemma EmptyTokenMatchesAtStart(path: string)
    ensures Index(path, "") == 0
  {
    assert OccursAt(path, "", 0);
  }

  /** GetBaseURL: the base URL and the base path for the comma-separated tokens. */
  method GetBaseURL(r: Request, s: string) returns (base: string, path: string)
    ensures base == CurrentBaseURL(r)
    ensures path == BasePath(r.path, Split(s, ","), 0)
  {
    var tokens := Split(s, ",");
    var k := 0;
    while k < |tokens|
      invariant 0 <= k <= |tokens|
      invariant BasePath(r.path, tokens, 0) == BasePath(r.path, tokens, k)
      decreases |tokens| - k
    {
      var i := Index(r.path, tokens[k]);
      if i >= 0 {
        return CurrentBaseURL(r), r.path[..i];
      }
      k := k + 1;
    }
    return CurrentBaseURL(r), r.path;
  }

  /** GetRelativeURL: the base URL, the path up to the first occurrence of orig
      (nothing of the path when orig does not occur), then repl. */
  function RelativeURL(r: Request, orig: string, repl: string): (u: string)
    ensures Index(r.path, orig) < 0 ==> u == CurrentBaseURL(r) + repl
    ensures Index(r.path, orig) >= 0 ==>
              u == CurrentBaseURL(r) + r.path[..Index(r.path, orig)] + repl
  {
    var i := Index(r.path, orig);
    if i < 0 then CurrentBaseURL(r) + repl else CurrentBaseURL(r) + r.path[..i] + repl
  }

  /** The relative URL starts with the base URL and ends with the replacement, and
      what lies between is a prefix of the path. */
  lemma RelativeURLShape(r: Request, orig: string, repl: string)
    ensures var u := RelativeURL(r, orig, repl);
            exists mid :: u == CurrentBaseURL(r) + mid + repl && HasPrefix(r.path, mid)
  {
    var i := Index(r.path, orig);
    var mid := if i < 0 then "" else r.path[..i];
    assert RelativeURL(r, orig, repl) == CurrentBaseURL(r) + mid + repl;
  }

  /** GetCurrentURL: base URL then path. */
  function CurrentURL(r: Request): (u: string)
    ensures HasPrefix(u, CurrentBaseURL(r)) && u[|CurrentBaseURL(r)|..] == r.path
  {
    CurrentBaseURL(r) + r.path
  }

  /** strings.TrimRightFunc with a function true for everything but '/': the
      string up to and including its last '/', or "" when it has none. */
  function TrimAfterLastSlash(s: string): (t: string)
    ensures HasPrefix(s, t)
    ensures t == "" || t[|t| - 1] == '/'
    ensures '/' !in s[|t|..]
    decreases |s|
  {
    if s == [] || s[|s| - 1] == '/' then s
    else
      var t := TrimAfterLastSlash(s[..|s| - 1]);
      assert s[|t|..] == s[..|s| - 1][|t|..] + [s[|s| - 1]];
      t
  }

  /** GetIssuerURL: a current URL ending in "callback" loses its last path segment. */
  function IssuerURL(r: Request): (u: string)
    ensures !HasSuffix(CurrentURL(r), "callback") ==> u == CurrentURL(r)
    ensures HasSuffix(CurrentURL(r), "callback") ==> u == TrimAfterLastSlash(CurrentURL(r))
  {
    var s := CurrentURL(r);
    if !HasSuffix(s, "callback") then s else TrimAfterLastSlash(s)
  }

  /** The trimmed URL is the one piece that ends at a '/' and leaves no '/' behind:
      any such cut of the string is the one TrimAfterLastSlash makes. */
  lemma {:induction false} TrimAfterLastSlashUnique(s: string, t: string)
    requires HasPrefix(s, t) && (t == "" || t[|t| - 1] == '/') && '/' !in s[|t|..]
    ensures TrimAfterLastSlash(s) == t
    decreases |s|
  {
    assert |t| < |s| ==> s[|s| - 1] in s[|t|..];
    assert |t| == |s| ==> t == s;
    if s != [] && s[|s| - 1] != '/' {
      var s' := s[..|s| - 1];
      assert s'[|t|..] == s[|t|..|s| - 1];
      assert forall c | c in s'[|t|..] :: c in s[|t|..];
      TrimAfterLastSlashUnique(s', t);
    }
  }

  /** Cutting "base/callback" after its last '/' gives "base/". */
  lemma TrimCallback(base: string)
    ensures HasSuffix(base + "/callback", "callback")
    ensures TrimAfterLastSlash(base + "/callback") == base + "/"
  {
    var s := base + "/callback";
    assert s[|base| + 1..] == "callback";
    assert s[..|base| + 1] == base + "/";
    TrimAfterLastSlashUnique(s, base + "/");
  }

  /** An issuer URL ending in "/callback" drops just "callback". */
  lemma IssuerOfCallback(r: Request, base: string)
    requires CurrentURL(r) == base + "/callback"
    ensures IssuerURL(r) == base + "/"
  {
    TrimCallback(base);
  }
}
