// The configuration file reader of geoipupdate (pkg/geoipupdate/config.go): a
// line-oriented "Key value" file, checked key by key, completed with defaults,
// and the proxy setting turned into a URL.
module GeoipupdateConfig {
  import opened Wrappers
  import opened GoStrings

  const DefaultHost: string := "updates.maxmind.com"
  /** 5 * time.Minute, in nanoseconds. */
  const DefaultRetryFor: int := 300_000_000_000
  const LockFileName: string := ".geoipupdate.lock"
  const LegacyLicenseKey: string := "000000000000"

  /** The user and password of a proxy URL. */
  datatype UserInfo = UserInfo(username: string, password: string)

  /** The parts of a url.URL the reader looks at or sets. */
  datatype ProxyURL = ProxyURL(scheme: string, user: Option<UserInfo>, host: string, path: string)

  /** Config; durations are nanoseconds. */
  datatype Config = Config(accountID: int, databaseDirectory: string, licenseKey: string,
                           lockFile: string, url: string, editionIDs: seq<string>,
                           proxy: Option<ProxyURL>, preserveFileTimes: bool, verbose: bool,
                           retryFor: int)

  const ZeroConfig: Config := Config(0, "", "", "", "", [], None, false, false, 0)

  /** The library calls the reader makes, given: filepath.Clean, time.ParseDuration
      (nanoseconds, none on a syntax error) and url.Parse. */
  datatype Env = Env(clean: string -> string, parseDuration: string -> Option<int>,
                     parseURL: string -> Option<ProxyURL>)

  /** What the scan has gathered so far: the config, the keys seen, and the
      Host, Proxy and ProxyUserPassword values. */
  datatype Scan = Scan(config: Config, seen: set<string>, host: string, proxy: string, proxyUserPassword: string)

  const InitialScan: Scan := Scan(ZeroConfig, {}, "", "", "")

  const KnownKeys: set<string> :=
    {"AccountID", "UserId", "DatabaseDirectory", "EditionIDs", "ProductIds", "Host",
     "LicenseKey", "LockFile", "PreserveFileTimes", "Proxy", "ProxyUserPassword",
     "Protocol", "SkipHostnameVerification", "SkipPeerVerification", "RetryFor"}

  const DeprecatedKeys: set<string> := {"Protocol", "SkipHostnameVerification", "SkipPeerVerification"}

  // ---------------------------------------------------------------------------
  // One line

  /** The effect of one "key value" pair whose key has not been seen before
      (st.seen already holds the key). */
  function Apply(st: Scan, key: string, value: string, lineNumber: nat, env: Env): Result<Scan, string>
  {
    if key == "AccountID" || key == "UserId" then
      match Atoi(value)
      case None => Err("invalid account ID format")
      case Some(a) => Ok(st.(config := st.config.(accountID := a), seen := st.seen + {"AccountID", "UserId"}))
    else if key == "DatabaseDirectory" then Ok(st.(config := st.config.(databaseDirectory := env.clean(value))))
    else if key == "EditionIDs" || key == "ProductIds" then
      Ok(st.(config := st.config.(editionIDs := Fields(value)), seen := st.seen + {"EditionIDs", "ProductIds"}))
    else if key == "Host" then Ok(st.(host := value))
    else if key == "LicenseKey" then Ok(st.(config := st.config.(licenseKey := value)))
    else if key == "LockFile" then Ok(st.(config := st.config.(lockFile := env.clean(value))))
    else if key == "PreserveFileTimes" then
      if value != "0" && value != "1" then Err("`PreserveFileTimes' must be 0 or 1")
      else if value == "1" then Ok(st.(config := st.config.(preserveFileTimes := true)))
      else Ok(st)
    else if key == "Proxy" then Ok(st.(proxy := value))
    else if key == "ProxyUserPassword" then Ok(st.(proxyUserPassword := value))
    else if key in DeprecatedKeys then Ok(st)
    else if key == "RetryFor" then
      match env.parseDuration(value)
      case None => Err("'" + value + "' is not a valid duration")
      case Some(d) =>
        if d < 0 then Err("'" + value + "' is not a valid duration")
        else Ok(st.(config := st.config.(retryFor := d)))
    else Err("unknown option on line " + NatToString(lineNumber))
  }

  /** The values the keys refuse: an account ID that is not a number, a
      PreserveFileTimes other than 0 or 1, a RetryFor that is not a non-negative
      duration; and every key the reader does not know. */
  lemma ApplyRefuses(st: Scan, key: string, value: string, lineNumber: nat, env: Env)
    ensures Apply(st, key, value, lineNumber, env).Err? <==>
              (((key == "AccountID" || key == "UserId") && Atoi(value).None?)
               || (key == "PreserveFileTimes" && value != "0" && value != "1")
               || (key == "RetryFor" && (env.parseDuration(value).None? || env.parseDuration(value).value < 0))
               || key !in KnownKeys)
  {
  }

  /** The deprecated keys are accepted and ignored. */
  lemma DeprecatedIgnored(st: Scan, key: string, value: string, lineNumber: nat, env: Env)
    requires key in DeprecatedKeys
    ensures Apply(st, key, value, lineNumber, env) == Ok(st)
  {
  }

  /** Keys seen stay seen, and an alias marks both of its names. */
  lemma ApplyMarksAliases(st: Scan, key: string, value: string, lineNumber: nat, env: Env)
    requires Apply(st, key, value, lineNumber, env).Ok?
    ensures st.seen <= Apply(st, key, value, lineNumber, env).value.seen
    ensures key == "AccountID" || key == "UserId" ==>
              {"AccountID", "UserId"} <= Apply(st, key, value, lineNumber, env).value.seen
    ensures key == "EditionIDs" || key == "ProductIds" ==>
              {"EditionIDs", "ProductIds"} <= Apply(st, key, value, lineNumber, env).value.seen
  {
  }

  /** What the keys with a checked value set. */
  lemma ApplySets(st: Scan, key: string, value: string, lineNumber: nat, env: Env)
    requires Apply(st, key, value, lineNumber, env).Ok?
    ensures var c := Apply(st, key, value, lineNumber, env).value.config;
            && (key == "AccountID" || key == "UserId" ==> c.accountID == Atoi(value).value)
            && (key == "EditionIDs" || key == "ProductIds" ==> c.editionIDs == Fields(value))
            && (key == "PreserveFileTimes" ==> c.preserveFileTimes == (value == "1" || st.config.preserveFileTimes))
            && (key == "RetryFor" ==> c.retryFor == env.parseDuration(value).value)
            && (key == "LicenseKey" ==> c.licenseKey == value)
            && (key == "DatabaseDirectory" ==> c.databaseDirectory == env.clean(value))
  {
  }

  /** A line of the file as the reader sees it: blank or a comment, a key with
      no value, or a key and its value. */
  datatype Line = Skip | Malformed | Pair(key: string, value: string)

  /** Blank and '#' lines are skipped; otherwise the first field is the key and
      the remaining fields, joined by single spaces, the value. */
  function ParseLine(line: string): (l: Line)
    ensures l.Skip? <==> TrimSpace(line) == "" || TrimSpace(line)[0] == '#'
    ensures l.Pair? ==> l.key == Fields(TrimSpace(line))[0] && |Fields(TrimSpace(line))| >= 2
  {
    var t := TrimSpace(line);
    if t == "" || t[0] == '#' then Skip
    else
      var fields := Fields(t);
      if |fields| < 2 then Malformed else Pair(fields[0], Join(fields[1..], " "))
  }

  /** A key and a value are read back from "key value", and the words of a longer
      value are joined by single spaces. */
  lemma ParseKeyValue(key: string, value: string)
    requires IsWord(key) && IsWord(value) && key[0] != '#'
    ensures ParseLine(key + " " + value) == Pair(key, value)
  {
    FieldsOfTwoWords(key, value);
  }

  /** One parsed line: a key seen before, under its own name or an alias, is an
      error; a new key is marked and applied. */
  function ReadLine(st: Scan, l: Line, lineNumber: nat, env: Env): Result<Scan, string> {
    match l
    case Skip => Ok(st)
    case Malformed => Err("invalid format on line " + NatToString(lineNumber))
    case Pair(key, value) =>
      if key in st.seen then Err("`" + key + "' is in the config multiple times")
      else Apply(st.(seen := st.seen + {key}), key, value, lineNumber, env)
  }

  /** How one line changes the scan. */
  type LineStep = (Scan, string, nat) -> Result<Scan, string>

  /** The scan of the first k lines by a step; the first failing line's error stops it. */
  function Steps(lines: seq<string>, k: nat, step: LineStep): Result<Scan, string>
    requires k <= |lines|
  {
    if k == 0 then Ok(InitialScan)
    else match Steps(lines, k - 1, step)
      case Err(e) => Err(e)
      case Ok(st) => step(st, lines[k - 1], k)
  }

  /** The reader's step: parse the line, then read it. */
  function Reader(env: Env): LineStep {
    (st: Scan, line: string, lineNumber: nat) => ReadLine(st, ParseLine(line), lineNumber, env)
  }

  /** The scan of the first k lines of the file. */
  function ScanAll(lines: seq<string>, k: nat, env: Env): Result<Scan, string>
    requires k <= |lines|
  {
    Steps(lines, k, Reader(env))
  }

  /** The key of a line that has one. */
  function KeyOf(line: string): Option<string> {
    var l := ParseLine(line);
    if l.Pair? then Some(l.key) else None
  }

  /** Blank and comment lines change nothing; a key without a value is an error
      that names the line. */
  lemma SkipAndMalformed(st: Scan, lineNumber: nat, env: Env)
    ensures ReadLine(st, Skip, lineNumber, env) == Ok(st)
    ensures ReadLine(st, Malformed, lineNumber, env) == Err("invalid format on line " + NatToString(lineNumber))
  {
  }

  /** A line read without error marks its key, and keys are never forgotten. */
  lemma ReadLineMarksKey(st: Scan, l: Line, lineNumber: nat, env: Env)
    requires ReadLine(st, l, lineNumber, env).Ok?
    ensures l.Pair? ==> l.key in ReadLine(st, l, lineNumber, env).value.seen
    ensures st.seen <= ReadLine(st, l, lineNumber, env).value.seen
  {
    if l.Pair? {
      ApplyMarksAliases(st.(seen := st.seen + {l.key}), l.key, l.value, lineNumber, env);
    }
  }

  /** A step that never forgets a key, marks the key of each line it reads and
      refuses a line whose key is marked, for the keys a function assigns to lines. */
  ghost predicate TracksKeys(step: LineStep, key: string -> Option<string>) {
    && (forall st: Scan, line: string, n: nat | step(st, line, n).Ok? :: st.seen <= step(st, line, n).value.seen)
    && (forall st: Scan, line: string, n: nat | key(line).Some? && step(st, line, n).Ok? ::
          key(line).value in step(st, line, n).value.seen)
    && (forall st: Scan, line: string, n: nat | key(line).Some? && key(line).value in st.seen ::
          step(st, line, n).Err?)
  }

  /** The reader tracks the keys of the lines. */
  lemma ReaderTracksKeys(env: Env)
    ensures TracksKeys(Reader(env), KeyOf)
  {
    forall st: Scan, line: string, n: nat | Reader(env)(st, line, n).Ok?
      ensures st.seen <= Reader(env)(st, line, n).value.seen
      ensures KeyOf(line).Some? ==> KeyOf(line).value in Reader(env)(st, line, n).value.seen
    {
      ReadLineMarksKey(st, ParseLine(line), n, env);
    }
  }

  /** With such a step, keys seen early in the file are still seen later. */
  lemma {:induction false} SeenGrows(lines: seq<string>, a: nat, b: nat, step: LineStep, key: string -> Option<string>)
    requires a <= b <= |lines| && Steps(lines, b, step).Ok? && TracksKeys(step, key)
    ensures Steps(lines, a, step).Ok? && Steps(lines, a, step).value.seen <= Steps(lines, b, step).value.seen
    decreases b - a
  {
    if a < b {
      SeenGrows(lines, a, b - 1, step, key);
    }
  }

  /** With such a step, the same key on two lines makes the later line fail. */
  lemma RepeatedKeyRefused(lines: seq<string>, i: nat, j: nat, step: LineStep, key: string -> Option<string>)
    requires i < j < |lines| && key(lines[i]).Some? && key(lines[i]) == key(lines[j])
    requires TracksKeys(step, key) && Steps(lines, j, step).Ok?
    ensures Steps(lines, j + 1, step).Err?
  {
    SeenGrows(lines, i + 1, j, step, key);
  }

  /** The same key on two lines of a file makes the later line fail. */
  lemma RepeatedKeyRejected(lines: seq<string>, i: nat, j: nat, env: Env)
    requires i < j < |lines| && KeyOf(lines[i]).Some? && KeyOf(lines[i]) == KeyOf(lines[j])
    requires ScanAll(lines, j, env).Ok?
    ensures ScanAll(lines, j + 1, env).Err?
  {
    ReaderTracksKeys(env);
    RepeatedKeyRefused(lines, i, j, Reader(env), KeyOf);
  }

  /** The scan of one more line reads that line. */
  lemma ScanAllNext(lines: seq<string>, i: nat, env: Env)
    requires i < |lines| && ScanAll(lines, i, env).Ok?
    ensures ScanAll(lines, i + 1, env) == ReadLine(ScanAll(lines, i, env).value, ParseLine(lines[i]), i + 1, env)
  {
  }

  /** Once a line fails, the scan of the whole file fails with that error. */
  lemma {:induction false} ScanErrorSticks(lines: seq<string>, k: nat, n: nat, step: LineStep)
    requires k <= n <= |lines| && Steps(lines, k, step).Err?
    ensures Steps(lines, n, step) == Steps(lines, k, step)
    decreases n - k
  {
    if k < n {
      ScanErrorSticks(lines, k, n - 1, step);
    }
  }

  // ---------------------------------------------------------------------------
  // The proxy

  /** [a-z] under (?i): the ASCII letters and the two other characters that fold
      to one of them, the Kelvin sign and the long s. */
  predicate IsSchemeStart(c: char) { 'a' <= c <= 'z' || 'A' <= c <= 'Z' || c == '\U{212A}' || c == '\U{017F}' }

  predicate IsSchemeChar(c: char) { IsSchemeStart(c) || '0' <= c <= '9' || c == '+' || c == '-' || c == '.' }

  /** The length of the leading run of scheme characters. */
  function SchemeCharsLength(s: string): (n: nat)
    ensures n <= |s| && (forall i | 0 <= i < n :: IsSchemeChar(s[i]))
    ensures n < |s| ==> !IsSchemeChar(s[n])
    decreases |s|
  {
    if |s| == 0 || !IsSchemeChar(s[0]) then 0 else 1 + SchemeCharsLength(s[1..])
  }

  /** The scheme the case-insensitive pattern \A([a-z][a-z0-9+\-.]*):// captures.
      ':' is not a scheme character, so the run of scheme characters must end
      right at "://". */
  function SchemeMatch(s: string): (r: Option<string>)
    ensures r.Some? ==> |r.value| > 0 && IsSchemeStart(r.value[0]) && HasPrefix(s, r.value + "://")
    ensures r.Some? ==> forall i | 0 <= i < |r.value| :: IsSchemeChar(r.value[i])
  {
    if |s| == 0 || !IsSchemeStart(s[0]) then None
    else
      var n := 1 + SchemeCharsLength(s[1..]);
      if n + 3 <= |s| && s[n..n + 3] == "://" then
        assert s[..n + 3] == s[..n] + "://";
        Some(s[..n])
      else None
  }

  /** parseProxy: nothing for an empty setting; http:// when no scheme is given;
      only http and socks5; port 1080 when the host names none; credentials in
      the URL win over ProxyUserPassword, which must hold a ':'. */
  function ParseProxy(proxy: string, userPassword: string, parseURL: string -> Option<ProxyURL>)
    : (r: Result<Option<ProxyURL>, string>)
    ensures proxy == "" ==> r == Ok(None)
    ensures proxy != "" && SchemeMatch(proxy).Some? &&
            ToLower(SchemeMatch(proxy).value) != "http" && ToLower(SchemeMatch(proxy).value) != "socks5"
            ==> r == Err("unsupported proxy type: " + ToLower(SchemeMatch(proxy).value))
    ensures r.Ok? && proxy != "" ==> r.value.Some?
    ensures r.Ok? && r.value.Some? ==> ':' in r.value.value.host
    ensures r.Ok? && r.value.Some? ==>
              (var u := parseURL(if SchemeMatch(proxy).None? then "http://" + proxy else proxy);
              u.Some?
              && r.value.value.host == (if ':' in u.value.host then u.value.host else u.value.host + ":1080")
              && r.value.value.scheme == u.value.scheme && r.value.value.path == u.value.path)
    ensures r.Ok? && r.value.Some? ==>
              (var u := parseURL(if SchemeMatch(proxy).None? then "http://" + proxy else proxy);
              u.Some? && (u.value.user.Some? ==> r.value.value.user == u.value.user)
              && (u.value.user.None? && userPassword == "" ==> r.value.value.user.None?))
    ensures proxy != "" && r.Ok? && r.value.value.user.Some? && userPassword != "" &&
            parseURL(if SchemeMatch(proxy).None? then "http://" + proxy else proxy).value.user.None?
            ==> r.value.value.user.value.username + ":" + r.value.value.user.value.password == userPassword
  {
    if proxy == "" then Ok(None)
    else
      var m := SchemeMatch(proxy);
      if m.Some? && ToLower(m.value) != "http" && ToLower(m.value) != "socks5" then
        Err("unsupported proxy type: " + ToLower(m.value))
      else
        var full := if m.None? then "http://" + proxy else proxy;
        match parseURL(full)
        case None => Err("error parsing proxy URL")
        case Some(u0) =>
          var u := if ':' in u0.host then u0 else u0.(host := u0.host + ":1080");
          if u.user.Some? || userPassword == "" then Ok(Some(u))
          else
            var parts := SplitN2(userPassword, ":");
            if |parts| != 2 then Err("proxy user/password is malformed")
            else
              SplitN2Rejoin(userPassword, ":");
              Ok(Some(u.(user := Some(UserInfo(parts[0], parts[1])))))
  }

  /** The two parts of a SplitN(s, sep, 2) that cut joined by sep give s back. */
  lemma SplitN2Rejoin(s: string, sep: string)
    requires |SplitN2(s, sep)| == 2
    ensures SplitN2(s, sep)[0] + sep + SplitN2(s, sep)[1] == s
  {
    var i := Index(s, sep);
    assert s[i..i + |sep|] == sep;
    assert s == s[..i] + s[i..i + |sep|] + s[i + |sep|..];
  }

  /** A ProxyUserPassword without ':' is refused when the URL carries no user. */
  lemma MalformedUserPasswordRejected(proxy: string, userPassword: string, parseURL: string -> Option<ProxyURL>)
    requires proxy != "" && userPassword != "" && ':' !in userPassword
    requires SchemeMatch(proxy).None?
    requires parseURL("http://" + proxy).Some? && parseURL("http://" + proxy).value.user.None?
    ensures ParseProxy(proxy, userPassword, parseURL) == Err("proxy user/password is malformed")
  {
    CharIndex(userPassword, ':');
  }

  // ---------------------------------------------------------------------------
  // After the scan

  /** filepath.Join(dir, name) for a non-empty name. */
  function JoinPath(dir: string, name: string, clean: string -> string): string {
    if dir == "" then clean(name) else clean(dir + "/" + name)
  }

  /** The config after the file is read: the required keys, the defaults
      (directory argument over the file over the default directory), the proxy,
      and the rejection of the legacy free account. */
  function Finish(st: Scan, defaultDir: string, dir: string, verbose: bool, env: Env): Result<Config, string>
  {
    if "EditionIDs" !in st.seen then Err("the `EditionIDs` option is required")
    else if "AccountID" !in st.seen then Err("the `AccountID` option is required")
    else if "LicenseKey" !in st.seen then Err("the `LicenseKey` option is required")
    else
      var c := st.config;
      var retry := if "RetryFor" in st.seen then c.retryFor else DefaultRetryFor;
      var dir1 := if dir != "" then env.clean(dir) else c.databaseDirectory;
      var dir2 := if dir1 == "" then env.clean(defaultDir) else dir1;
      var host := if st.host == "" then DefaultHost else st.host;
      var lock := if c.lockFile == "" then JoinPath(dir2, LockFileName, env.clean) else c.lockFile;
      match ParseProxy(st.proxy, st.proxyUserPassword, env.parseURL)
      case Err(e) => Err(e)
      case Ok(p) =>
        if (c.accountID == 0 || c.accountID == 999999) && c.licenseKey == LegacyLicenseKey then
          Err("geoipupdate requires a valid AccountID and LicenseKey combination")
        else
          Ok(c.(retryFor := retry, databaseDirectory := dir2, verbose := verbose, lockFile := lock,
                url := "https://" + host, proxy := p))
  }

  /** The required keys are checked in the order EditionIDs, AccountID, LicenseKey. */
  lemma FinishNeedsKeys(st: Scan, defaultDir: string, dir: string, verbose: bool, env: Env)
    ensures "EditionIDs" !in st.seen ==>
              Finish(st, defaultDir, dir, verbose, env) == Err("the `EditionIDs` option is required")
    ensures "EditionIDs" in st.seen && "AccountID" !in st.seen ==>
              Finish(st, defaultDir, dir, verbose, env) == Err("the `AccountID` option is required")
    ensures "EditionIDs" in st.seen && "AccountID" in st.seen && "LicenseKey" !in st.seen ==>
              Finish(st, defaultDir, dir, verbose, env) == Err("the `LicenseKey` option is required")
    ensures Finish(st, defaultDir, dir, verbose, env).Ok? ==> {"EditionIDs", "AccountID", "LicenseKey"} <= st.seen
  {
  }

  /** The defaults: RetryFor five minutes; the directory argument over the file's
      DatabaseDirectory over the default directory; the lock file in that
      directory; the download URL over https from Host or updates.maxmind.com. */
  lemma FinishDefaults(st: Scan, defaultDir: string, dir: string, verbose: bool, env: Env)
    requires Finish(st, defaultDir, dir, verbose, env).Ok?
    ensures var c := Finish(st, defaultDir, dir, verbose, env).value;
            && c.retryFor == (if "RetryFor" in st.seen then st.config.retryFor else DefaultRetryFor)
            && (dir != "" && env.clean(dir) != "" ==> c.databaseDirectory == env.clean(dir))
            && (dir == "" && st.config.databaseDirectory != "" ==> c.databaseDirectory == st.config.databaseDirectory)
            && ((dir != "" && env.clean(dir) == "") || (dir == "" && st.config.databaseDirectory == "") ==>
                  c.databaseDirectory == env.clean(defaultDir))
            && c.lockFile == (if st.config.lockFile != "" then st.config.lockFile
                              else JoinPath(c.databaseDirectory, LockFileName, env.clean))
            && c.url == "https://" + (if st.host == "" then DefaultHost else st.host)
  {
  }

  /** The values read from the file are kept, the verbose flag is the argument's,
      and the proxy is the parsed Proxy setting. */
  lemma FinishKeeps(st: Scan, defaultDir: string, dir: string, verbose: bool, env: Env)
    requires Finish(st, defaultDir, dir, verbose, env).Ok?
    ensures var c := Finish(st, defaultDir, dir, verbose, env).value;
            && c.verbose == verbose && c.accountID == st.config.accountID
            && c.licenseKey == st.config.licenseKey && c.editionIDs == st.config.editionIDs
            && c.preserveFileTimes == st.config.preserveFileTimes
            && ParseProxy(st.proxy, st.proxyUserPassword, env.parseURL) == Ok(c.proxy)
  {
  }

  /** The legacy free-download account is refused once everything else is in order. */
  lemma LegacyAccountRejected(st: Scan, defaultDir: string, dir: string, verbose: bool, env: Env)
    requires {"EditionIDs", "AccountID", "LicenseKey"} <= st.seen
    requires ParseProxy(st.proxy, st.proxyUserPassword, env.parseURL).Ok?
    requires st.config.accountID == 0 || st.config.accountID == 999999
    requires st.config.licenseKey == LegacyLicenseKey
    ensures Finish(st, defaultDir, dir, verbose, env)
              == Err("geoipupdate requires a valid AccountID and LicenseKey combination")
  {
  }

  /** NewConfig on the file's lines. */
  function ReadConfig(lines: seq<string>, defaultDir: string, dir: string, verbose: bool, env: Env): Result<Config, string> {
    match ScanAll(lines, |lines|, env)
    case Err(e) => Err(e)
    case Ok(st) => Finish(st, defaultDir, dir, verbose, env)
  }

  /** One "key value" line of the scanning loop: a key seen before is refused,
      a new one is marked and applied. */
  method ReadPair(st: Scan, key: string, value: string, lineNumber: nat, env: Env) returns (r: Result<Scan, string>)
    ensures r == ReadLine(st, Pair(key, value), lineNumber, env)
  {
    if key in st.seen {
      return Err("`" + key + "' is in the config multiple times");
    }
    r := Apply(st.(seen := st.seen + {key}), key, value, lineNumber, env);
  }

  /** The scanning loop of NewConfig: the config, the keys seen and the host
      and proxy settings, updated line by line. */
  method ReadLines(lines: seq<string>, env: Env) returns (r: Result<Scan, string>)
    ensures r == ScanAll(lines, |lines|, env)
  {
    var config := ZeroConfig;
    var keysSeen: set<string> := {};
    var host, proxy, proxyUserPassword := "", "", "";
    var i := 0;
    while i < |lines|
      invariant 0 <= i <= |lines|
      invariant ScanAll(lines, i, env) == Ok(Scan(config, keysSeen, host, proxy, proxyUserPassword))
    {
      var lineNumber := i + 1;
      ScanAllNext(lines, i, env);
      match ParseLine(lines[i]) {
        case Skip =>
        case Malformed =>
          r := Err("invalid format on line " + NatToString(lineNumber));
          ScanErrorSticks(lines, i + 1, |lines|, Reader(env));
          return;
        case Pair(key, value) =>
          var next := ReadPair(Scan(config, keysSeen, host, proxy, proxyUserPassword), key, value, lineNumber, env);
          if next.Err? {
            r := Err(next.error);
            ScanErrorSticks(lines, i + 1, |lines|, Reader(env));
            return;
          }
          config, keysSeen, host, proxy, proxyUserPassword :=
            next.value.config, next.value.seen, next.value.host, next.value.proxy, next.value.proxyUserPassword;
      }
      i := i + 1;
    }
    r := Ok(Scan(config, keysSeen, host, proxy, proxyUserPassword));
  }

  /** NewConfig: the scan of the lines, then the checks and defaults of Finish. */
  method NewConfig(lines: seq<string>, defaultDir: string, dir: string, verbose: bool, env: Env)
    returns (r: Result<Config, string>)
    ensures r == ReadConfig(lines, defaultDir, dir, verbose, env)
  {
    var scan := ReadLines(lines, env);
    if scan.Err? {
      return Err(scan.error);
    }
    r := Finish(scan.value, defaultDir, dir, verbose, env);
  }
}
