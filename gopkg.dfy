// The vanity import path plugin (gopkg/gopkg.go): "gopkg path [vcs] uri"
// directives, and the handler that answers the first directive whose path
// pattern matches the request, with a redirect or the go-import page.
module Gopkg {
  import opened Wrappers
  import opened Caddyfile

  /** A directive: the path pattern, the version control system and the URI template. */
  datatype Config = Config(path: string, vcs: string, uri: string)

  const DefaultVcs: string := "git"

  /** c.ArgErr(), raised with the dispenser at the given token. */
  datatype ParseError = ArgErr(at: Token)

  // ---------------------------------------------------------------------------
  // parse

  /** The configs of the directives from token i on, and the error that stopped
      the reading, if any; the configs before an error are kept. */
  function ParseFrom(toks: seq<Token>, i: nat): (r: (seq<Config>, Option<ParseError>))
    decreases |toks| - i
  {
    if i >= |toks| then ([], None)
    else
      var e := ArgsEnd(toks, i);
      var args := RemainingArgs(toks, i);
      if |args| != 2 && |args| != 3 then ([], Some(ArgErr(toks[e - 1])))
      else
        var cfg := Config(args[0], if |args| == 2 then DefaultVcs else args[1], args[|args| - 1]);
        var rest := ParseFrom(toks, e);
        ([cfg] + rest.0, rest.1)
  }

  /** parse: Next moves to each directive; RemainingArgs takes the rest of its line. */
  method Parse(toks: seq<Token>) returns (configs: seq<Config>, err: Option<ParseError>)
    ensures (configs, err) == ParseFrom(toks, 0)
  {
    configs := [];
    var cursor := 0;
    assert configs + ParseFrom(toks, 0).0 == ParseFrom(toks, 0).0;
    while cursor < |toks|
      invariant 0 <= cursor <= |toks|
      invariant ParseFrom(toks, 0) == (configs + ParseFrom(toks, cursor).0, ParseFrom(toks, cursor).1)
      decreases |toks| - cursor
    {
      var args := RemainingArgs(toks, cursor);
      var next := ArgsEnd(toks, cursor);
      ParseStep(toks, cursor);
      if |args| != 2 && |args| != 3 {
        assert configs + [] == configs;
        return configs, Some(ArgErr(toks[next - 1]));
      }
      var cfg := Config(args[0], DefaultVcs, "");
      if |args| == 2 {
        cfg := cfg.(uri := args[1]);
      } else {
        cfg := cfg.(vcs := args[1], uri := args[2]);
      }
      assert cfg == Directive(args);
      assert configs + ([cfg] + ParseFrom(toks, next).0) == (configs + [cfg]) + ParseFrom(toks, next).0;
      configs := configs + [cfg];
      cursor := next;
    }
    assert ParseFrom(toks, cursor) == ([], None);
    assert configs + [] == configs;
    err := None;
  }

  /** "gopkg path uri" uses git. */
  lemma TwoArgumentsUseGit(name: string, path: string, uri: string, line: int)
    ensures ParseFrom([Token(name, line), Token(path, line), Token(uri, line)], 0)
              == ([Config(path, DefaultVcs, uri)], None)
  {
    var toks := [Token(name, line), Token(path, line), Token(uri, line)];
    assert ArgsEnd(toks, 2) == 3;
    assert ArgsEnd(toks, 0) == 3;
    assert RemainingArgs(toks, 1) == [uri];
    assert RemainingArgs(toks, 0) == [path, uri];
    assert ParseFrom(toks, 3) == ([], None);
    assert ParseFrom(toks, 0) == ([Config(path, DefaultVcs, uri)] + ParseFrom(toks, 3).0, ParseFrom(toks, 3).1);
    assert [Config(path, DefaultVcs, uri)] + [] == [Config(path, DefaultVcs, uri)];
  }

  /** "gopkg path vcs uri" takes the vcs given. */
  lemma ThreeArgumentsGiveVcs(name: string, path: string, vcs: string, uri: string, line: int)
    ensures ParseFrom([Token(name, line), Token(path, line), Token(vcs, line), Token(uri, line)], 0)
              == ([Config(path, vcs, uri)], None)
  {
    var toks := [Token(name, line), Token(path, line), Token(vcs, line), Token(uri, line)];
    assert ArgsEnd(toks, 3) == 4;
    assert ArgsEnd(toks, 0) == 4;
    assert RemainingArgs(toks, 2) == [uri];
    assert RemainingArgs(toks, 1) == [vcs, uri];
    assert RemainingArgs(toks, 0) == [path, vcs, uri];
    assert ParseFrom(toks, 4) == ([], None);
    assert ParseFrom(toks, 0) == ([Config(path, vcs, uri)] + ParseFrom(toks, 4).0, ParseFrom(toks, 4).1);
    assert [Config(path, vcs, uri)] + [] == [Config(path, vcs, uri)];
  }

  /** Any other number of arguments is an argument error at the last token of the
      line, and the directives after it are not read. */
  lemma WrongArgumentCount(toks: seq<Token>, i: nat)
    requires i < |toks| && |RemainingArgs(toks, i)| != 2 && |RemainingArgs(toks, i)| != 3
    ensures ParseFrom(toks, i) == ([], Some(ArgErr(toks[ArgsEnd(toks, i) - 1])))
  {
  }

  /** The arguments of a token in the first part of a file that ends a line are
      the same as in that part alone. */
  lemma {:induction false} ArgsEndPrefix(a: seq<Token>, b: seq<Token>, i: nat)
    requires i < |a| && (|b| == 0 || a[|a| - 1].line != b[0].line)
    ensures ArgsEnd(a + b, i) == ArgsEnd(a, i)
    ensures RemainingArgs(a + b, i) == RemainingArgs(a, i)
    decreases |a| - i
  {
    var s := a + b;
    assert NextOnSameLine(s, i) == NextOnSameLine(a, i);
    if NextOnSameLine(a, i) {
      ArgsEndPrefix(a, b, i + 1);
    }
  }

  /** The arguments of a token in the second part of a file are those it has in
      that part alone, shifted. */
  lemma {:induction false} ArgsEndSuffix(a: seq<Token>, b: seq<Token>, j: nat)
    requires j < |b|
    ensures ArgsEnd(a + b, |a| + j) == |a| + ArgsEnd(b, j)
    ensures RemainingArgs(a + b, |a| + j) == RemainingArgs(b, j)
    decreases |b| - j
  {
    var s := a + b;
    assert NextOnSameLine(s, |a| + j) == NextOnSameLine(b, j);
    if NextOnSameLine(b, j) {
      ArgsEndSuffix(a, b, j + 1);
    }
  }

  /** Reading the second part of a file from its start is reading it alone. */
  lemma {:induction false} ParseSuffix(a: seq<Token>, b: seq<Token>, j: nat)
    requires j <= |b|
    ensures ParseFrom(a + b, |a| + j) == ParseFrom(b, j)
    decreases |b| - j
  {
    if j < |b| {
      ArgsEndSuffix(a, b, j);
      var e := ArgsEnd(b, j);
      if |RemainingArgs(b, j)| == 2 || |RemainingArgs(b, j)| == 3 {
        ParseSuffix(a, b, e);
        assert ParseFrom(a + b, |a| + e) == ParseFrom(b, e);
      }
      assert (a + b)[|a| + e - 1] == b[e - 1];
    }
  }

  /** The config of a directive with two or three arguments. */
  function Directive(args: seq<string>): (c: Config)
    requires |args| == 2 || |args| == 3
    ensures c.path == args[0] && c.uri == args[|args| - 1]
    ensures c.vcs == (if |args| == 2 then DefaultVcs else args[1])
  {
    Config(args[0], if |args| == 2 then DefaultVcs else args[1], args[|args| - 1])
  }

  /** One directive read at token i. */
  lemma ParseStep(toks: seq<Token>, i: nat)
    requires i < |toks|
    ensures var args := RemainingArgs(toks, i);
            var e := ArgsEnd(toks, i);
            ParseFrom(toks, i) ==
              if |args| != 2 && |args| != 3 then ([], Some(ArgErr(toks[e - 1])))
              else ([Directive(args)] + ParseFrom(toks, e).0, ParseFrom(toks, e).1)
  {
  }

  /** Directives are read in file order: for two parts of a file split at a line
      break, the configs of the whole are those of the first part followed by
      those of the second, when the first part reads without error. */
  lemma {:induction false} ParseConcat(a: seq<Token>, b: seq<Token>, i: nat)
    requires i <= |a| && (|a| == 0 || |b| == 0 || a[|a| - 1].line != b[0].line)
    requires ParseFrom(a, i).1.None?
    ensures ParseFrom(a + b, i) == (ParseFrom(a, i).0 + ParseFrom(b, 0).0, ParseFrom(b, 0).1)
    decreases |a| - i
  {
    if i == |a| {
      ParseSuffix(a, b, 0);
      assert [] + ParseFrom(b, 0).0 == ParseFrom(b, 0).0;
    } else {
      var e := ArgsEnd(a, i);
      ParseConcatDirective(a, b, i);
      ParseConcat(a, b, e);
      ParseConcatDirectiveNext(a, b, i);
    }
  }

  /** Helpers of ParseConcat: a directive of the first part reads the same in
      the whole. */
  lemma ParseConcatDirective(a: seq<Token>, b: seq<Token>, i: nat)
    requires i < |a| && (|b| == 0 || a[|a| - 1].line != b[0].line)
    requires ParseFrom(a, i).1.None?
    ensures i < ArgsEnd(a, i) <= |a| && ParseFrom(a, ArgsEnd(a, i)).1.None?
  {
    ParseStep(a, i);
  }

  lemma ParseConcatDirectiveNext(a: seq<Token>, b: seq<Token>, i: nat)
    requires i < |a| && (|b| == 0 || a[|a| - 1].line != b[0].line)
    requires ParseFrom(a, i).1.None?
    requires ParseFrom(a + b, ArgsEnd(a, i))
               == (ParseFrom(a, ArgsEnd(a, i)).0 + ParseFrom(b, 0).0, ParseFrom(b, 0).1)
    ensures ParseFrom(a + b, i) == (ParseFrom(a, i).0 + ParseFrom(b, 0).0, ParseFrom(b, 0).1)
  {
    ArgsEndPrefix(a, b, i);
    ParseStep(a, i);
    ParseStep(a + b, i);
    var e := ArgsEnd(a, i);
    var cfg := Directive(RemainingArgs(a, i));
    assert [cfg] + (ParseFrom(a, e).0 + ParseFrom(b, 0).0) == ([cfg] + ParseFrom(a, e).0) + ParseFrom(b, 0).0;
  }

  // ---------------------------------------------------------------------------
  // ServeHTTP

  /** The parts of the request the handler reads: the URL path, the go-get form
      value, the Host and the User-Agent header. */
  datatype Request = Request(path: string, goGet: string, host: string, userAgent: string)

  /** The regexp package, given: whether a pattern compiles, whether it matches a
      string, and ReplaceAllString. */
  datatype Regexp = Regexp(compiles: string -> bool, matches: (string, string) -> bool,
                           replaceAll: (string, string, string) -> string)

  /** The data the go-import page is rendered from. */
  datatype Page = Page(host: string, path: string, vcs: string, uri: string, userAgent: string)

  /** What the handler does: a 307 redirect, the rendered page, a failed
      rendering, or handing the request to the next handler. */
  datatype Response = Redirect(location: string) | Rendered(page: Page) | RenderFailed | Delegated

  /** The status ServeHTTP returns: 0 after writing the redirect itself, 200 for
      the page, 500 when the template fails, the next handler's otherwise. */
  function Status(resp: Response, nextStatus: int): int {
    match resp
    case Redirect(_) => 0
    case Rendered(_) => 200
    case RenderFailed => 500
    case Delegated => nextStatus
  }

  /** A config answers a path when its pattern compiles and matches the path. */
  predicate Answers(c: Config, path: string, re: Regexp) {
    re.compiles(c.path) && re.matches(c.path, path)
  }

  /** The first config from position k on that answers the path. */
  function FirstMatch(configs: seq<Config>, path: string, re: Regexp, k: nat): (r: Option<nat>)
    ensures r.Some? ==> k <= r.value < |configs| && Answers(configs[r.value], path, re)
    ensures r.Some? ==> forall j | k <= j < r.value :: !Answers(configs[j], path, re)
    ensures r.None? ==> forall j | k <= j < |configs| :: !Answers(configs[j], path, re)
    decreases |configs| - k
  {
    if k >= |configs| then None
    else if Answers(configs[k], path, re) then Some(k)
    else FirstMatch(configs, path, re, k + 1)
  }

  /** The answer of one config: the URI is the path rewritten by the pattern;
      without go-get=1 a redirect to it, with it the go-import page. */
  function Respond(c: Config, r: Request, re: Regexp, execute: Page -> bool): Response {
    var uri := re.replaceAll(c.path, r.path, c.uri);
    if r.goGet != "1" then Redirect(uri)
    else
      var page := Page(r.host, r.path, c.vcs, uri, r.userAgent);
      if execute(page) then Rendered(page) else RenderFailed
  }

  /** ServeHTTP as a function of its inputs; execute says whether rendering the
      template succeeds. */
  function Serve(configs: seq<Config>, r: Request, re: Regexp, execute: Page -> bool): Response {
    match FirstMatch(configs, r.path, re, 0)
    case None => Delegated
    case Some(k) => Respond(configs[k], r, re, execute)
  }

  /** The first config that answers decides; the ones after it are not looked at. */
  lemma FirstAnswerDecides(configs: seq<Config>, r: Request, re: Regexp, execute: Page -> bool, k: nat)
    requires k < |configs| && Answers(configs[k], r.path, re)
    requires forall j | 0 <= j < k :: !Answers(configs[j], r.path, re)
    ensures Serve(configs, r, re, execute) == Respond(configs[k], r, re, execute)
  {
  }

  /** With no config answering, the request goes to the next handler. */
  lemma NoAnswerDelegates(configs: seq<Config>, r: Request, re: Regexp, execute: Page -> bool)
    requires forall j | 0 <= j < |configs| :: !Answers(configs[j], r.path, re)
    ensures Serve(configs, r, re, execute) == Delegated
  {
  }

  /** A config whose pattern does not compile is skipped. */
  lemma UncompilableSkipped(c: Config, configs: seq<Config>, r: Request, re: Regexp, execute: Page -> bool)
    requires !re.compiles(c.path)
    ensures Serve([c] + configs, r, re, execute) == Serve(configs, r, re, execute)
  {
    FirstMatchShift(c, configs, r.path, re, 0);
  }

  lemma {:induction false} FirstMatchShift(c: Config, configs: seq<Config>, path: string, re: Regexp, k: nat)
    requires !Answers(c, path, re)
    ensures FirstMatch([c] + configs, path, re, k + 1) ==
              (match FirstMatch(configs, path, re, k) case None => None case Some(m) => Some(m + 1))
    ensures k == 0 ==> FirstMatch([c] + configs, path, re, 0) == FirstMatch([c] + configs, path, re, 1)
    decreases |configs| - k
  {
    var s := [c] + configs;
    if k < |configs| {
      assert s[k + 1] == configs[k];
      FirstMatchShift(c, configs, path, re, k + 1);
    }
  }

  /** A request without go-get=1 that a config answers is redirected, and one
      with it gets the page or the failure: never the next handler. */
  lemma AnsweredRequests(configs: seq<Config>, r: Request, re: Regexp, execute: Page -> bool, k: nat)
    requires k < |configs| && Answers(configs[k], r.path, re)
    ensures r.goGet != "1" <==> Serve(configs, r, re, execute).Redirect?
    ensures Serve(configs, r, re, execute) != Delegated
  {
  }

  /** ServeHTTP: the configs are tried in order; one whose pattern fails to
      compile or does not match is skipped; the first that matches answers. */
  method ServeHTTP(configs: seq<Config>, r: Request, re: Regexp, execute: Page -> bool, next: Request -> int)
    returns (status: int, resp: Response)
    ensures resp == Serve(configs, r, re, execute)
    ensures status == Status(resp, next(r))
  {
    var k := 0;
    while k < |configs|
      invariant 0 <= k <= |configs|
      invariant FirstMatch(configs, r.path, re, 0) == FirstMatch(configs, r.path, re, k)
    {
      var cfg := configs[k];
      if !re.compiles(cfg.path) || !re.matches(cfg.path, r.path) {
        k := k + 1;
        continue;
      }
      var uri := re.replaceAll(cfg.path, r.path, cfg.uri);
      if r.goGet != "1" {
        return 0, Redirect(uri);
      }
      var page := Page(r.host, r.path, cfg.vcs, uri, r.userAgent);
      if !execute(page) {
        return 500, RenderFailed;
      }
      return 200, Rendered(page);
    }
    return next(r), Delegated;
  }
}
