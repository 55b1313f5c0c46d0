// Software versions and package metadata of greenpau/versioned: the
// `major.minor.patch` parser and renderer, the in-place increments, the version
// file's classification, and the package banner.
module VersionedVersion {
  import opened Wrappers
  import opened GoStrings

  /** uint64 arithmetic wraps modulo 2^64. */
  const Uint64Modulus: nat := Pow2(64)

  datatype VersionError =
    | EmptyVersion
    | NotThreeParts(s: string)
    | BadMajor(s: string)
    | BadMinor(s: string)
    | BadPatch(s: string)

  /** The text parseVersion reads: trimmed of whitespace, double quotes, single quotes and whitespace again. */
  function CleanVersion(s: string): string {
    TrimSpace(Trim(Trim(TrimSpace(s), {'"'}), {'\''}))
  }

  /** parseVersion: the cleaned text, split and read as three base-10 uint64 numbers. */
  function ParseVersion(s: string): Result<(nat, nat, nat), VersionError> {
    ParseParts(CleanVersion(s))
  }

  /**
   * Empty text is rejected, then text that is not three '.'-separated parts,
   * then the first part that is not a base-10 uint64.
   */
  function ParseParts(t: string): (r: Result<(nat, nat, nat), VersionError>)
    ensures t == "" <==> r == Err(EmptyVersion)
    ensures t != "" && |Split(t, ".")| != 3 ==> r == Err(NotThreeParts(t))
    ensures r.Ok? <==> (t != "" && |Split(t, ".")| == 3
      && forall k | 0 <= k < 3 :: ParseUint(Split(t, ".")[k], 64).Some?)
    ensures r.Ok? ==> (var parts := Split(t, ".");
      r.value == (ParseUint(parts[0], 64).value, ParseUint(parts[1], 64).value, ParseUint(parts[2], 64).value))
  {
    if t == "" then Err(EmptyVersion)
    else
      var parts := Split(t, ".");
      if |parts| != 3 then Err(NotThreeParts(t))
      else
        var major, minor, patch := ParseUint(parts[0], 64), ParseUint(parts[1], 64), ParseUint(parts[2], 64);
        if major.None? then Err(BadMajor(t))
        else if minor.None? then Err(BadMinor(t))
        else if patch.None? then Err(BadPatch(t))
        else Ok((major.value, minor.value, patch.value))
  }

  /** The `%d.%d.%d` rendering of a version. */
  function Render(major: nat, minor: nat, patch: nat): string {
    NatToString(major) + "." + NatToString(minor) + "." + NatToString(patch)
  }

  /** Parsing a rendered version gives back the same triple. */
  lemma ParseRender(major: nat, minor: nat, patch: nat)
    requires major < Uint64Modulus && minor < Uint64Modulus && patch < Uint64Modulus
    ensures ParseVersion(Render(major, minor, patch)) == Ok((major, minor, patch))
  {
    var a, b, c := NatToString(major), NatToString(minor), NatToString(patch);
    var t := Render(major, minor, patch);
    assert ParseVersion(t) == ParseParts(t) by { RenderClean(major, minor, patch); }
    assert Split(t, ".") == [a, b, c] by { RenderSplit(a, b, c); }
    assert ParseUint(a, 64) == Some(major) by { ParseUint64(major); }
    assert ParseUint(b, 64) == Some(minor) by { ParseUint64(minor); }
    assert ParseUint(c, 64) == Some(patch) by { ParseUint64(patch); }
    ParseThree(t, a, b, c, major, minor, patch);
  }

  lemma ParseUint64(n: nat)
    requires n < Uint64Modulus
    ensures ParseUint(NatToString(n), 64) == Some(n)
  {
    ParseUintOfNatToString(n, 64);
  }

  lemma ParseThree(t: string, a: string, b: string, c: string, x: nat, y: nat, z: nat)
    requires t != "" && Split(t, ".") == [a, b, c]
    requires ParseUint(a, 64) == Some(x) && ParseUint(b, 64) == Some(y) && ParseUint(c, 64) == Some(z)
    ensures ParseParts(t) == Ok((x, y, z))
  { }

  /** A rendered version has nothing for parseVersion to trim. */
  lemma RenderClean(major: nat, minor: nat, patch: nat)
    ensures CleanVersion(Render(major, minor, patch)) == Render(major, minor, patch)
  {
    var a, c := NatToString(major), NatToString(patch);
    var t := Render(major, minor, patch);
    assert t[0] == a[0] && t[|t| - 1] == c[|c| - 1];
    NoTrim(t, {'"'});
    NoTrim(t, {'\''});
  }

  /** Text that starts and ends with a digit is left alone by the trims. */
  lemma NoTrim(t: string, cut: set<char>)
    requires |t| > 0 && IsDigit(t[0]) && IsDigit(t[|t| - 1])
    requires forall ch | ch in cut :: !IsDigit(ch)
    ensures TrimSpace(t) == t && Trim(t, cut) == t
  {
    NoTrimSpace(t);
    NoTrimSet(t, cut);
  }

  lemma NoTrimSpace(t: string)
    requires |t| > 0 && IsDigit(t[0]) && IsDigit(t[|t| - 1])
    ensures TrimSpace(t) == t
  {
    assert !IsSpace(t[0]) && !IsSpace(t[|t| - 1]);
    assert TrimLeftSpace(t) == t;
    assert TrimRightSpace(t) == t;
  }

  lemma NoTrimSet(t: string, cut: set<char>)
    requires |t| > 0 && t[0] !in cut && t[|t| - 1] !in cut
    ensures Trim(t, cut) == t
  {
    assert TrimLeftSet(t, cut) == t;
    assert TrimRightSet(t, cut) == t;
  }

  /** Three dot-free parts joined by '.' split back into those parts. */
  lemma RenderSplit(a: string, b: string, c: string)
    requires AllDigits(a) && AllDigits(b) && AllDigits(c)
    ensures Split(a + "." + b + "." + c, ".") == [a, b, c]
  {
    assert '.' !in a && '.' !in b && '.' !in c by {
      assert forall i | 0 <= i < |a| :: IsDigit(a[i]);
      assert forall i | 0 <= i < |b| :: IsDigit(b[i]);
      assert forall i | 0 <= i < |c| :: IsDigit(c[i]);
    }
    assert a + "." + b + "." + c == a + ['.'] + (b + ['.'] + c);
    SplitAtFirst(a, '.', b + ['.'] + c);
    SplitAtFirst(b, '.', c);
    CharIndex(c, '.');
    IndexFindsContained(c, ".");
    SplitAbsent(c, ".");
  }

  /** filepath.Split on '/': the directory up to and including the last '/', and the name after it. */
  function SplitPath(fp: string): (r: (string, string))
    ensures r.0 + r.1 == fp
    ensures '/' !in r.1
    ensures r.0 == "" || r.0[|r.0| - 1] == '/'
    decreases |fp|
  {
    if fp == [] then ("", "")
    else if fp[|fp| - 1] == '/' then (fp, "")
    else
      var (dir, name) := SplitPath(fp[..|fp| - 1]);
      (dir, name + [fp[|fp| - 1]])
  }

  /** A path without '/' is a bare file name. */
  lemma {:induction false} SplitPathName(fp: string)
    requires '/' !in fp
    ensures SplitPath(fp) == ("", fp)
    decreases |fp|
  {
    if fp != [] {
      var init := fp[..|fp| - 1];
      assert '/' !in init by {
        forall i | 0 <= i < |init| ensures init[i] != '/' {
          assert init[i] == fp[i];
        }
      }
      SplitPathName(init);
      assert fp[|fp| - 1] in fp;
      assert fp[..|fp| - 1] == init;
      assert init + [fp[|fp| - 1]] == fp;
    }
  }

  /** The kind of version file a name denotes. */
  function FileTypeOf(fileName: string): (t: string)
    ensures fileName == "package.json" ==> t == "npm-package"
    ensures fileName == "setup.py" ==> t == "python-package"
    ensures fileName != "package.json" && fileName != "setup.py" ==> t == "version-file"
  {
    if fileName == "package.json" then "npm-package"
    else if fileName == "setup.py" then "python-package"
    else "version-file"
  }

  /** A software version `major.minor.patch` and the file it is kept in. */
  class Version {
    var major: nat
    var minor: nat
    var patch: nat
    var filePath: string
    var fileName: string
    var fileType: string
    var fileDir: string

    /** The numbers are uint64 values. */
    ghost predicate Valid()
      reads this
    {
      major < Uint64Modulus && minor < Uint64Modulus && patch < Uint64Modulus
    }

    constructor (major: nat, minor: nat, patch: nat)
      requires major < Uint64Modulus && minor < Uint64Modulus && patch < Uint64Modulus
      ensures Valid()
      ensures this.major == major && this.minor == minor && this.patch == patch
      ensures filePath == "" && fileName == "" && fileType == "" && fileDir == ""
    {
      this.major, this.minor, this.patch := major, minor, patch;
      filePath, fileName, fileType, fileDir := "", "", "", "";
    }

    /** String: `major.minor.patch`. */
    function String(): string
      reads this
    {
      Render(major, minor, patch)
    }

    /** Bytes: the rendering as bytes, one per character since it is all digits and dots. */
    function Bytes(): (r: seq<byte>)
      reads this
      ensures |r| == |String()| && forall i | 0 <= i < |r| :: r[i] as int == String()[i] as int
    {
      RenderIsAscii(major, minor, patch);
      Utf8Ascii(String());
      Utf8(String())
    }

    /** Bumps the major version (wrapping as uint64) and resets minor and patch; the argument is unused. */
    method IncrementMajor(i: nat)
      requires Valid()
      modifies this
      ensures Valid()
      ensures major == (old(major) + 1) % Uint64Modulus && minor == 0 && patch == 0
      ensures filePath == old(filePath) && fileName == old(fileName) && fileType == old(fileType)
      ensures fileDir == old(fileDir)
    {
      major := (major + 1) % Uint64Modulus;
      minor := 0;
      patch := 0;
    }

    /** Bumps the minor version and resets patch; major and the argument play no part. */
    method IncrementMinor(i: nat)
      requires Valid()
      modifies this
      ensures Valid()
      ensures major == old(major) && minor == (old(minor) + 1) % Uint64Modulus && patch == 0
      ensures filePath == old(filePath) && fileName == old(fileName) && fileType == old(fileType)
      ensures fileDir == old(fileDir)
    {
      minor := (minor + 1) % Uint64Modulus;
      patch := 0;
    }

    /** Bumps only the patch version. */
    method IncrementPatch(i: nat)
      requires Valid()
      modifies this
      ensures Valid()
      ensures major == old(major) && minor == old(minor) && patch == (old(patch) + 1) % Uint64Modulus
      ensures filePath == old(filePath) && fileName == old(fileName) && fileType == old(fileType)
      ensures fileDir == old(fileDir)
    {
      patch := (patch + 1) % Uint64Modulus;
    }

    /** Records the version file and classifies it by name; it never fails. */
    method SetFile(fp: string) returns (err: Option<string>)
      modifies this
      ensures err.None?
      ensures filePath == fp && fileDir + fileName == fp && '/' !in fileName
      ensures (fileDir, fileName) == SplitPath(fp) && fileType == FileTypeOf(fileName)
      ensures major == old(major) && minor == old(minor) && patch == old(patch)
    {
      var (dir, name) := SplitPath(fp);
      filePath := fp;
      fileDir := dir;
      fileName := name;
      if name == "package.json" {
        fileType := "npm-package";
        return None;
      }
      if name == "setup.py" {
        fileType := "python-package";
        return None;
      }
      fileType := "version-file";
      err := None;
    }
  }

  /** All digits and dots. */
  lemma RenderIsAscii(major: nat, minor: nat, patch: nat)
    ensures IsAscii(Render(major, minor, patch))
  {
    var a, b, c := NatToString(major), NatToString(minor), NatToString(patch);
    assert forall i | 0 <= i < |a| :: IsDigit(a[i]);
    assert forall i | 0 <= i < |b| :: IsDigit(b[i]);
    assert forall i | 0 <= i < |c| :: IsDigit(c[i]);
  }

  /** NewVersion: a parsed version kept in the file VERSION. */
  method NewVersion(s: string) returns (r: Result<Version, VersionError>)
    ensures r.Err? <==> ParseVersion(s).Err?
    ensures r.Err? ==> r.error == ParseVersion(s).error
    ensures r.Ok? ==> (fresh(r.value) && r.value.Valid()
      && (r.value.major, r.value.minor, r.value.patch) == ParseVersion(s).value
      && r.value.filePath == "VERSION" && r.value.fileName == "VERSION" && r.value.fileDir == ""
      && r.value.fileType == "version-file")
  {
    var p := ParseVersion(s);
    if p.Err? {
      return Err(p.error);
    }
    var (major, minor, patch) := p.value;
    assert major < Uint64Modulus && minor < Uint64Modulus && patch < Uint64Modulus;
    var v := new Version(major, minor, patch);
    DefaultFile();
    var _ := v.SetFile("VERSION");
    r := Ok(v);
  }

  /** The default version file VERSION sits in the current directory and is a plain version file. */
  lemma DefaultFile()
    ensures SplitPath("VERSION") == ("", "VERSION") && FileTypeOf("VERSION") == "version-file"
  {
    SplitPathName("VERSION");
  }

  // ------------------------------------------------------------ package metadata

  /**
   * The banner: name and version, then each Git clause only when set, then the
   * build clause only when both user and date are set, ending with the running
   * platform and Go version.
   */
  function BannerText(name: string, version: string, branch: string, commit: string, user: string, date: string,
                      os: string, arch: string, goos: string, goarch: string, goVersion: string): string
  {
    name + " " + version + Clause(", branch: ", branch) + Clause(", commit: ", commit)
      + BuildClause(user, date, os, arch, goos, goarch, goVersion)
  }

  /** A labelled clause, present only when its value is set. */
  function Clause(tag: string, v: string): (r: string)
    requires |tag| > 0
    ensures r == "" <==> v == ""
    ensures v != "" ==> HasPrefix(r, tag) && HasSuffix(r, v) && |r| == |tag| + |v|
  {
    if v != "" then tag + v else ""
  }

  /** The build clause: only with both user and date, and naming os/arch inside it only when both are set. */
  function BuildClause(user: string, date: string, os: string, arch: string, goos: string, goarch: string,
                       goVersion: string): (r: string)
    ensures r == "" <==> user == "" || date == ""
    ensures user != "" && date != "" ==> (HasPrefix(r, ", build on " + date + " by " + user)
      && HasSuffix(r, PlatformClause(goos, goarch, goVersion)))
    ensures user != "" && date != "" && os != "" && arch != "" ==>
      HasSuffix(r, " for " + os + "/" + arch + PlatformClause(goos, goarch, goVersion))
    ensures user != "" && date != "" && (os == "" || arch == "") ==>
      r == ", build on " + date + " by " + user + PlatformClause(goos, goarch, goVersion)
  {
    if user == "" || date == "" then ""
    else
      var lead := ", build on " + date + " by " + user;
      var target := if os != "" && arch != "" then " for " + os + "/" + arch else "";
      ConcatEnds(lead, target, PlatformClause(goos, goarch, goVersion));
      lead + target + PlatformClause(goos, goarch, goVersion)
  }

  /** The running platform: ` (<GOOS>/<GOARCH> <go version>)`. */
  function PlatformClause(goos: string, goarch: string, goVersion: string): string {
    " (" + goos + "/" + goarch + " " + goVersion + ")"
  }

  lemma ConcatEnds(a: string, b: string, c: string)
    ensures HasPrefix(a + b + c, a) && HasSuffix(a + b + c, c) && HasSuffix(a + b + c, b + c)
    ensures |a| > 0 ==> a + b + c != ""
  {
    assert (a + b + c)[..|a|] == a;
    assert (a + b + c)[|a + b + c| - |c|..] == c;
    assert (a + b + c)[|a + b + c| - |b + c|..] == b + c;
  }

  /**
   * The banner starts with name and version, each clause follows in turn, and it
   * is just name and version exactly when no clause applies.
   */
  lemma BannerShape(name: string, version: string, branch: string, commit: string, user: string, date: string,
                    os: string, arch: string, goos: string, goarch: string, goVersion: string)
    ensures var r := BannerText(name, version, branch, commit, user, date, os, arch, goos, goarch, goVersion);
      var head := name + " " + version;
      var b := Clause(", branch: ", branch);
      var c := Clause(", commit: ", commit);
      var build := BuildClause(user, date, os, arch, goos, goarch, goVersion);
      HasPrefix(r, head) && HasPrefix(r, head + b) && HasPrefix(r, head + b + c) && HasSuffix(r, build)
      && ((branch == "" && commit == "" && (user == "" || date == "")) <==> r == head)
  {
    var head := name + " " + version;
    var b := Clause(", branch: ", branch);
    var c := Clause(", commit: ", commit);
    var build := BuildClause(user, date, os, arch, goos, goarch, goVersion);
    PrefixesOf(head, b, c, build);
  }

  lemma PrefixesOf(h: string, b: string, c: string, d: string)
    ensures var r := h + b + c + d;
      HasPrefix(r, h) && HasPrefix(r, h + b) && HasPrefix(r, h + b + c) && HasSuffix(r, d)
      && (r == h <==> b == "" && c == "" && d == "")
  {
    var r := h + b + c + d;
    assert r[..|h|] == h;
    assert r[..|h + b|] == h + b;
    assert r[..|h + b + c|] == h + b + c;
    assert r[|r| - |d|..] == d;
    if b == "" && c == "" && d == "" {
      assert r == h;
    }
  }

  /** Metadata about a package; the Set* methods fill its fields. */
  class PackageManager {
    var name: string
    var version: string
    var description: string
    var documentation: string
    var gitBranch: string
    var gitCommit: string
    var buildOs: string
    var buildArch: string
    var buildUser: string
    var buildDate: string

    /** NewPackageManager: only the name is set. */
    constructor (s: string)
      ensures name == s && version == "" && description == "" && documentation == ""
      ensures gitBranch == "" && gitCommit == "" && buildOs == "" && buildArch == "" && buildUser == ""
      ensures buildDate == ""
    {
      name, version, description, documentation := s, "", "", "";
      gitBranch, gitCommit, buildOs, buildArch, buildUser, buildDate := "", "", "", "", "", "";
    }

    /** The running platform and Go version come in as parameters. */
    function Banner(goos: string, goarch: string, goVersion: string): string
      reads this
    {
      BannerText(name, version, gitBranch, gitCommit, buildUser, buildDate, buildOs, buildArch, goos, goarch, goVersion)
    }

    method SetVersion(v: string, d: string)
      modifies this
      ensures version == (if v != "" then v else d)
      ensures name == old(name) && gitBranch == old(gitBranch) && gitCommit == old(gitCommit)
      ensures buildUser == old(buildUser) && buildDate == old(buildDate)
      ensures description == old(description) && documentation == old(documentation)
      ensures buildOs == old(buildOs) && buildArch == old(buildArch)
    {
      if v != "" {
        version := v;
        return;
      }
      version := d;
    }

    method SetGitBranch(v: string, d: string)
      modifies this
      ensures gitBranch == (if v != "" then v else d)
      ensures name == old(name) && version == old(version) && gitCommit == old(gitCommit)
      ensures buildUser == old(buildUser) && buildDate == old(buildDate)
      ensures description == old(description) && documentation == old(documentation)
      ensures buildOs == old(buildOs) && buildArch == old(buildArch)
    {
      if v != "" {
        gitBranch := v;
        return;
      }
      gitBranch := d;
    }

    method SetGitCommit(v: string, d: string)
      modifies this
      ensures gitCommit == (if v != "" then v else d)
      ensures name == old(name) && version == old(version) && gitBranch == old(gitBranch)
      ensures buildUser == old(buildUser) && buildDate == old(buildDate)
      ensures description == old(description) && documentation == old(documentation)
      ensures buildOs == old(buildOs) && buildArch == old(buildArch)
    {
      if v != "" {
        gitCommit := v;
        return;
      }
      gitCommit := d;
    }

    method SetBuildUser(v: string, d: string)
      modifies this
      ensures buildUser == (if v != "" then v else d)
      ensures name == old(name) && version == old(version) && gitBranch == old(gitBranch)
      ensures gitCommit == old(gitCommit) && buildDate == old(buildDate)
      ensures description == old(description) && documentation == old(documentation)
      ensures buildOs == old(buildOs) && buildArch == old(buildArch)
    {
      if v != "" {
        buildUser := v;
        return;
      }
      buildUser := d;
    }

    method SetBuildDate(v: string, d: string)
      modifies this
      ensures buildDate == (if v != "" then v else d)
      ensures name == old(name) && version == old(version) && gitBranch == old(gitBranch)
      ensures gitCommit == old(gitCommit) && buildUser == old(buildUser)
      ensures description == old(description) && documentation == old(documentation)
      ensures buildOs == old(buildOs) && buildArch == old(buildArch)
    {
      if v != "" {
        buildDate := v;
        return;
      }
      buildDate := d;
    }
  }
}
