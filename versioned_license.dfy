// Licence headers of greenpau/versioned: the header object's setters, the
// comment wrapping chosen by file extension, the rendering of the Apache header
// line by line, and the add / strip decisions over a file's bytes.  Go strings
// are byte strings, so the copyright holder and all file contents are bytes.
module VersionedLicense {
  import opened Wrappers
  import opened GoStrings

  const LF: byte := 10
  const CR: byte := 13

  datatype LicenseError =
    | EmptyFilePath
    | EmptyCopyrightHolder
    | EmptyYear
    | UnsupportedLicenseType(licenseType: string)
    | NoFileExtension(path: string)
    | UnsupportedExtension(ext: string, path: string)
    | ReadFailed(path: string)
    | HeaderMismatch(path: string)
    | UnsupportedAction(action: string)
    | AddFailed(cause: LicenseError)
    | StripFailed(cause: LicenseError)

  /** The bytes of the module's own text, one byte per character: every literal here is ASCII, whose UTF-8 form is exactly this. */
  function Bytes(s: string): (r: seq<byte>)
    ensures |r| == |s|
  {
    seq(|s|, i requires 0 <= i < |s| => (s[i] as int % 256) as byte)
  }

  /** For ASCII text these are exactly its UTF-8 bytes. */
  lemma {:induction false} BytesAreUtf8(s: string)
    requires IsAscii(s)
    ensures Bytes(s) == Utf8(s)
  {
    Utf8Ascii(s);
  }

  /** ASCII text without line breaks. */
  predicate PlainText(s: string) {
    forall i | 0 <= i < |s| :: s[i] as int < 0x80 && s[i] != '\n' && s[i] != '\r'
  }

  lemma {:induction false} PlainBytes(s: string)
    requires PlainText(s)
    ensures LF !in Bytes(s)
    ensures forall i | 0 <= i < |s| :: Bytes(s)[i] as int == s[i] as int
  {
    assert forall i | 0 <= i < |s| :: Bytes(s)[i] as int == s[i] as int;
  }

  // ------------------------------------------------------------ the template

  /** licenseClues["apache"]. */
  const ApacheClue: string := "Licensed under the Apache License, Version 2.0"

  /** The Apache template after its clue, up to its last line. */
  const ApacheRest: string :=
    " (the \"License\");\n"
    + "you may not use this file except in compliance with the License.\n"
    + "You may obtain a copy of the License at\n"
    + "\n"
    + "    http://www.apache.org/licenses/LICENSE-2.0\n"
    + "\n"
    + "Unless required by applicable law or agreed to in writing, software\n"
    + "distributed under the License is distributed on an \"AS IS\" BASIS,\n"
    + "WITHOUT WARRANTIES OR CONDITIONS OF ANY KIND, either express or implied.\n"
    + "See the License for the specific language governing permissions and\n"
    + "limitations under the License."

  /** The first template line: "Copyright <year> <holder>". */
  function CopyrightLine(year: nat, holder: seq<byte>): seq<byte> {
    Bytes("Copyright " + NatToString(year) + " ") + holder
  }

  /** The template from its clue on. */
  function ApacheBody(): seq<byte> {
    Bytes(ApacheClue) + Bytes(ApacheRest)
  }

  /** The Apache template executed with {{.Year}} in decimal and {{.CopyrightHolder}} as is: the copyright line, a blank line, the body. */
  function ApacheText(year: nat, holder: seq<byte>): seq<byte> {
    CopyrightLine(year, holder) + [LF] + ([LF] + ApacheBody())
  }

  /** A parsed text/template: literal text and the two fields the licence templates refer to. */
  datatype Piece = Text(text: string) | YearField | HolderField

  /** tmplApache as text/template parses it. */
  const ApacheTemplate: seq<Piece> :=
    [Text("Copyright "), YearField, Text(" "), HolderField, Text("\n\n" + ApacheClue + ApacheRest)]

  /** Executing a template: text as is, {{.Year}} in decimal, {{.CopyrightHolder}} as is. */
  function Execute(t: seq<Piece>, year: nat, holder: seq<byte>): seq<byte>
    decreases |t|
  {
    if t == [] then []
    else
      var head := match t[0]
        case Text(s) => Bytes(s)
        case YearField => Bytes(NatToString(year))
        case HolderField => holder;
      head + Execute(t[1..], year, holder)
  }

  lemma {:induction false} BytesAppend(a: string, b: string)
    ensures Bytes(a + b) == Bytes(a) + Bytes(b)
  {
    assert forall i | 0 <= i < |a + b| :: Bytes(a + b)[i] == (Bytes(a) + Bytes(b))[i];
  }

  /** Executing five pieces: text, the year, text, the holder, text. */
  lemma {:induction false} ExecuteFive(pre: string, mid: string, tail: string, year: nat, holder: seq<byte>)
    ensures Execute([Text(pre), YearField, Text(mid), HolderField, Text(tail)], year, holder)
      == Bytes(pre) + (Bytes(NatToString(year)) + (Bytes(mid) + (holder + Bytes(tail))))
  {
    var t4 := [Text(tail)];
    var t3 := [HolderField] + t4;
    var t2 := [Text(mid)] + t3;
    var t1 := [YearField] + t2;
    assert [Text(pre), YearField, Text(mid), HolderField, Text(tail)] == [Text(pre)] + t1;
    assert t4[1..] == [];
    assert Execute(t4, year, holder) == Bytes(tail);
    assert Execute(t3, year, holder) == holder + Bytes(tail);
    assert Execute(t2, year, holder) == Bytes(mid) + (holder + Bytes(tail));
    assert Execute(t1, year, holder) == Bytes(NatToString(year)) + (Bytes(mid) + (holder + Bytes(tail)));
  }

  /** A template of tmplApache's shape: text, the year, a space, the holder, then a blank line and the rest. */
  lemma {:induction false} ExecuteCopyright(pre: string, clue: string, rest: string, year: nat, holder: seq<byte>)
    ensures Execute([Text(pre), YearField, Text(" "), HolderField, Text("\n\n" + clue + rest)], year, holder)
      == Bytes(pre + NatToString(year) + " ") + holder + [LF] + ([LF] + (Bytes(clue) + Bytes(rest)))
  {
    var tail := "\n\n" + clue + rest;
    ExecuteFive(pre, " ", tail, year, holder);
    BytesAppend("\n\n" + clue, rest);
    BytesAppend("\n\n", clue);
    assert Bytes("\n\n") == [LF, LF];
    assert Bytes(tail) == [LF] + ([LF] + (Bytes(clue) + Bytes(rest)));
    BytesAppend(pre + NatToString(year), " ");
    BytesAppend(pre, NatToString(year));
    assert Bytes(pre + NatToString(year) + " ") == Bytes(pre) + Bytes(NatToString(year)) + Bytes(" ");
  }

  /** Executing tmplApache gives the copyright line, a blank line and the body. */
  lemma {:induction false} ExecuteApache(year: nat, holder: seq<byte>)
    ensures Execute(ApacheTemplate, year, holder) == ApacheText(year, holder)
  {
    ExecuteCopyright("Copyright ", ApacheClue, ApacheRest, year, holder);
  }

  /** licenseTemplates[t] executed: an unknown type looks up the empty template, which renders nothing. */
  function TemplateText(templates: map<string, seq<Piece>>, licenseType: string, year: nat, holder: seq<byte>): seq<byte> {
    if licenseType in templates then Execute(templates[licenseType], year, holder) else []
  }

  /** The package's licenseTemplates table. */
  const LicenseTemplates: map<string, seq<Piece>> := map["apache" := ApacheTemplate]

  /** The package's licenseClues table. */
  const LicenseClues: map<string, string> := map["apache" := ApacheClue]

  /** licenseClues[t], empty for an unknown type. */
  function Clue(clues: map<string, string>, licenseType: string): seq<byte> {
    if licenseType in clues then Bytes(clues[licenseType]) else []
  }

  /** The second mark inspect looks for. */
  function CopyrightMark(): seq<byte> {
    Bytes("Copyright ")
  }

  /** The clue is one line of ASCII ending in '0'. */
  lemma {:induction false} ClueIsPlain()
    ensures var c := Bytes(ApacheClue); |c| == 46 && LF !in c && AsciiNonSpace(c[45])
  {
    assert PlainText("Licensed under the Apache");
    assert PlainText(" License, Version 2.0");
    assert PlainText(ApacheClue);
    PlainBytes(ApacheClue);
    assert ApacheClue[45] == '0';
  }

  // ----------------------------------------------------------- file extension

  /** No '.' after the last '/' of the path. */
  predicate NoDotInBase(path: string) {
    forall i | 0 <= i < |path| && path[i] == '.' :: '/' in path[i + 1..]
  }

  /** filepath.Ext on '/'-separated paths: the suffix from the last '.' of the final element, or "". */
  function Ext(path: string): (r: string)
    ensures |r| <= |path|
    decreases |path|
  {
    if path == "" then ""
    else
      var c := path[|path| - 1];
      if c == '/' then ""
      else if c == '.' then "."
      else
        var e := Ext(path[..|path| - 1]);
        if e == "" then "" else e + [c]
  }

  lemma {:induction false} EndsInSlash(path: string)
    requires path != [] && path[|path| - 1] == '/'
    ensures NoDotInBase(path)
  {
    forall i | 0 <= i < |path| && path[i] == '.' ensures '/' in path[i + 1..] {
      assert path[i + 1..][|path| - i - 2] == '/';
    }
  }

  lemma {:induction false} EndsInDot(path: string)
    requires path != [] && path[|path| - 1] == '.'
    ensures !NoDotInBase(path)
  {
    assert path[|path|..] == [];
  }

  lemma {:induction false} NoDotSnoc(p: string, c: char)
    requires c != '/' && c != '.'
    ensures NoDotInBase(p + [c]) <==> NoDotInBase(p)
  {
    var path := p + [c];
    forall i | 0 <= i < |p| ensures path[i] == p[i] && ('/' in path[i + 1..] <==> '/' in p[i + 1..]) {
      assert path[i + 1..] == p[i + 1..] + [c];
    }
  }

  /** The extension is the path's tail from its last '.', with no '/' or further '.' in it; there is none exactly when the last element has no '.'. */
  lemma {:induction false} ExtIsLastDot(path: string)
    ensures var r := Ext(path);
      (r != "" ==> r[0] == '.' && r == path[|path| - |r|..] && '/' !in r && '.' !in r[1..])
      && (r == "" <==> NoDotInBase(path))
    decreases |path|
  {
    if path != "" {
      var c, p := path[|path| - 1], path[..|path| - 1];
      assert path == p + [c];
      if c == '/' {
        EndsInSlash(path);
      } else if c == '.' {
        EndsInDot(path);
      } else {
        ExtIsLastDot(p);
        NoDotSnoc(p, c);
        var e := Ext(p);
        if e != "" {
          assert (e + [c])[1..] == e[1..] + [c];
          assert path[|path| - |e| - 1..] == p[|p| - |e|..] + [c];
        }
      }
    }
  }

  /** The extension getWrapChars works with: the recorded one, or else the path's. */
  function ExtensionFor(ext: string, path: string): string {
    if ext == "" then Ext(path) else ext
  }

  /** wrapChars: the opening line, the prefix of every line, and the closing line. */
  datatype Wrap = Wrap(open: seq<byte>, line: seq<byte>, close: seq<byte>)

  /** The comment style for an extension: Go line comments, or a JavaScript block comment. */
  function WrapFor(ext: string, path: string): (r: Result<Wrap, LicenseError>)
    ensures r.Ok? <==> ext == ".go" || ext == ".js"
    ensures ext == "" ==> r == Err(NoFileExtension(path))
  {
    if ext == "" then Err(NoFileExtension(path))
    else if ext == ".go" then Ok(Wrap([], Bytes("// "), []))
    else if ext == ".js" then Ok(Wrap(Bytes("/**"), Bytes(" * "), Bytes(" */")))
    else Err(UnsupportedExtension(ext, path))
  }

  predicate AsciiSpace(b: byte) {
    b == 9 || b == 10 || b == 11 || b == 12 || b == 13 || b == 32
  }

  predicate AsciiNonSpace(b: byte) {
    b < 0x80 && !AsciiSpace(b)
  }

  /** Line pieces without line feeds, each line prefix ending in a visible ASCII character. */
  predicate WellFormedWrap(w: Wrap) {
    LF !in w.open && LF !in w.line && LF !in w.close
    && |w.line| >= 2 && AsciiNonSpace(w.line[1])
    && (w.open == [] || AsciiNonSpace(w.open[|w.open| - 1]))
    && (w.close == [] || AsciiNonSpace(w.close[|w.close| - 1]))
  }

  lemma {:induction false} WrapForWellFormed(ext: string, path: string)
    requires WrapFor(ext, path).Ok?
    ensures WellFormedWrap(WrapFor(ext, path).value)
  {
    PlainBytes("// ");
    PlainBytes("/**");
    PlainBytes(" * ");
    PlainBytes(" */");
  }

  // ---------------------------------------------------- right-trimming spaces

  /** The three-byte UTF-8 encodings of the white-space runes U+1680, U+2000-U+200A, U+2028, U+2029, U+202F, U+205F, U+3000. */
  predicate WideSpace(x: byte, y: byte, z: byte) {
    (x == 0xE1 && y == 0x9A && z == 0x80)
    || (x == 0xE2 && y == 0x80 && ((0x80 <= z && z <= 0x8A) || z == 0xA8 || z == 0xA9 || z == 0xAF))
    || (x == 0xE2 && y == 0x81 && z == 0x9F)
    || (x == 0xE3 && y == 0x80 && z == 0x80)
  }

  /** The byte length of the white-space rune (unicode.IsSpace) that b ends with, or 0. */
  function TrailingSpaceWidth(b: seq<byte>): (k: nat)
    ensures k <= |b|
    ensures k > 0 ==> b[|b| - 1] >= 0x80 || AsciiSpace(b[|b| - 1])
    ensures k > 1 ==> b[|b| - 2] >= 0x80
  {
    var n := |b|;
    if n >= 1 && AsciiSpace(b[n - 1]) then 1
    else if n >= 2 && b[n - 2] == 0xC2 && (b[n - 1] == 0x85 || b[n - 1] == 0xA0) then 2
    else if n >= 3 && WideSpace(b[n - 3], b[n - 2], b[n - 1]) then 3
    else 0
  }

  /** strings.TrimRightFunc(s, unicode.IsSpace). */
  function TrimTrailingSpace(b: seq<byte>): (r: seq<byte>)
    ensures r <= b
    ensures TrailingSpaceWidth(r) == 0
    decreases |b|
  {
    var k := TrailingSpaceWidth(b);
    if k == 0 then b else TrimTrailingSpace(b[..|b| - k])
  }

  /** Trimming never reaches into a prefix that ends in a visible ASCII character. */
  lemma {:induction false} TrimKeepsPrefix(p: seq<byte>, q: seq<byte>)
    requires p != [] && AsciiNonSpace(p[|p| - 1])
    ensures p <= TrimTrailingSpace(p + q)
    decreases |q|
  {
    var b := p + q;
    var k := TrailingSpaceWidth(b);
    if k > 0 {
      assert b[..|b| - k] == p + q[..|q| - k];
      TrimKeepsPrefix(p, q[..|q| - k]);
    }
  }

  // ------------------------------------------------------------ line scanning

  /** The first index at or after from holding c, or -1. */
  function IndexFrom(b: seq<byte>, c: byte, from: nat): (r: int)
    requires from <= |b|
    ensures r == -1 || (from <= r < |b| && b[r] == c)
    decreases |b| - from
  {
    if from == |b| then -1
    else if b[from] == c then from
    else IndexFrom(b, c, from + 1)
  }

  /** Nothing between from and the index found holds c; with -1, nothing after from does. */
  lemma {:induction false} IndexFromFirst(b: seq<byte>, c: byte, from: nat)
    requires from <= |b|
    ensures var r := IndexFrom(b, c, from);
      (r >= 0 ==> forall j | from <= j < r :: b[j] != c)
      && (r < 0 ==> forall j | from <= j < |b| :: b[j] != c)
    decreases |b| - from
  {
    if from < |b| && b[from] != c {
      IndexFromFirst(b, c, from + 1);
    }
  }

  /** bytes.IndexByte. */
  function IndexByte(b: seq<byte>, c: byte): (r: int)
    ensures r == -1 || (0 <= r < |b| && b[r] == c)
  {
    IndexFrom(b, c, 0)
  }

  /** IndexByte gives the first occurrence, and -1 only when there is none. */
  lemma {:induction false} IndexByteFirst(b: seq<byte>, c: byte)
    ensures var r := IndexByte(b, c);
      (r >= 0 ==> forall j | 0 <= j < r :: b[j] != c)
      && (r < 0 ==> forall j | 0 <= j < |b| :: b[j] != c)
  {
    IndexFromFirst(b, c, 0);
  }

  function DropCR(b: seq<byte>): (r: seq<byte>)
    ensures r <= b
  {
    if |b| > 0 && b[|b| - 1] == CR then b[..|b| - 1] else b
  }

  /** The lines a bufio.Scanner yields with ScanLines: split at LF, one trailing CR dropped, a last unterminated line kept. */
  function ScanLines(b: seq<byte>): (r: seq<seq<byte>>)
    ensures b != [] ==> r != []
    decreases |b|
  {
    if b == [] then []
    else
      var i := IndexByte(b, LF);
      if i < 0 then [DropCR(b)] else [DropCR(b[..i])] + ScanLines(b[i + 1..])
  }

  /** No scanned line holds an LF. */
  lemma {:induction false} ScanLinesFree(b: seq<byte>)
    ensures forall k | 0 <= k < |ScanLines(b)| :: LF !in ScanLines(b)[k]
    decreases |b|
  {
    if b != [] {
      var i := IndexByte(b, LF);
      IndexByteFirst(b, LF);
      var head := if i < 0 then b else b[..i];
      assert LF !in head;
      assert LF !in DropCR(head) by {
        assert DropCR(head) == head[..|DropCR(head)|];
      }
      if i >= 0 {
        ScanLinesFree(b[i + 1..]);
        assert ScanLines(b) == [DropCR(head)] + ScanLines(b[i + 1..]);
      }
    }
  }

  /** The first LF of a + [LF] + y is the first LF of a + [LF]. */
  lemma {:induction false} FirstLineFeed(a: seq<byte>, y: seq<byte>)
    ensures var i := IndexByte(a + [LF] + y, LF);
      0 <= i <= |a| && i == IndexByte(a + [LF], LF)
  {
    var s, t := a + [LF] + y, a + [LF];
    var i, j := IndexByte(s, LF), IndexByte(t, LF);
    IndexByteFirst(s, LF);
    IndexByteFirst(t, LF);
    assert s[|a|] == LF && t[|a|] == LF;
    assert 0 <= i <= |a| && 0 <= j <= |a|;
    assert s[j] == t[j] && s[i] == t[i];
  }

  /** Scanning splits at every LF: the lines before one and the lines after it. */
  lemma {:induction false} ScanSplit(a: seq<byte>, y: seq<byte>)
    ensures ScanLines(a + [LF] + y) == ScanLines(a + [LF]) + ScanLines(y)
    decreases |a|
  {
    var s, t := a + [LF] + y, a + [LF];
    FirstLineFeed(a, y);
    var i := IndexByte(s, LF);
    if i == |a| {
      assert s[..i] == a && t[..i] == a;
      assert s[i + 1..] == y && t[i + 1..] == [];
    } else {
      var a' := a[i + 1..];
      assert s[..i] == t[..i];
      assert s[i + 1..] == a' + [LF] + y;
      assert t[i + 1..] == a' + [LF];
      ScanSplit(a', y);
    }
  }

  /** A line as the scanner gives it back: no LF, and no CR at its end. */
  predicate PlainLine(l: seq<byte>) {
    LF !in l && (l == [] || l[|l| - 1] != CR)
  }

  /** A plain line scans as itself. */
  lemma {:induction false} ScanOne(l: seq<byte>)
    requires PlainLine(l)
    ensures ScanLines(l + [LF]) == [l]
  {
    var s := l + [LF];
    var i := IndexByte(s, LF);
    IndexByteFirst(s, LF);
    assert s[|l|] == LF;
    assert i == |l| by {
      assert forall j | 0 <= j < |l| :: s[j] == l[j];
    }
    assert s[..i] == l && s[i + 1..] == [];
  }

  /** The bytes before the first LF, or all of them. */
  function LineHead(b: seq<byte>): (r: seq<byte>)
    ensures r <= b
  {
    var i := IndexByte(b, LF);
    if i < 0 then b else b[..i]
  }

  lemma {:induction false} FirstScanned(b: seq<byte>)
    requires b != []
    ensures ScanLines(b) != [] && ScanLines(b)[0] == DropCR(LineHead(b))
  { }

  lemma {:induction false} HeadKeepsPrefix(c: seq<byte>, r: seq<byte>)
    requires LF !in c
    ensures c <= LineHead(c + r)
  {
    var s := c + r;
    IndexByteFirst(s, LF);
    assert IndexByte(s, LF) < 0 || IndexByte(s, LF) >= |c|;
  }

  lemma {:induction false} DropCRKeepsPrefix(c: seq<byte>, h: seq<byte>)
    requires c != [] && c[|c| - 1] != CR && c <= h
    ensures c <= DropCR(h)
  {
    if |h| > 0 && h[|h| - 1] == CR {
      assert |h| > |c|;
    }
  }

  /** The first line of c + r begins with c when c holds no LF and does not end in CR. */
  lemma {:induction false} ScanFirst(c: seq<byte>, r: seq<byte>)
    requires c != [] && LF !in c && c[|c| - 1] != CR
    ensures ScanLines(c + r) != [] && c <= ScanLines(c + r)[0]
  {
    FirstScanned(c + r);
    HeadKeepsPrefix(c, r);
    DropCRKeepsPrefix(c, LineHead(c + r));
  }

  // ---------------------------------------------------------------- the header

  /** Every template line prefixed and right-trimmed. */
  function WrapLines(prefix: seq<byte>, lines: seq<seq<byte>>): (r: seq<seq<byte>>)
    ensures |r| == |lines|
    decreases |lines|
  {
    if lines == [] then []
    else WrapLines(prefix, lines[..|lines| - 1]) + [TrimTrailingSpace(prefix + lines[|lines| - 1])]
  }

  lemma {:induction false} WrapLinesAt(prefix: seq<byte>, lines: seq<seq<byte>>, k: nat)
    requires k < |lines|
    ensures WrapLines(prefix, lines)[k] == TrimTrailingSpace(prefix + lines[k])
    decreases |lines|
  {
    if k < |lines| - 1 {
      WrapLinesAt(prefix, lines[..|lines| - 1], k);
    }
  }

  function Opening(w: Wrap): seq<seq<byte>> {
    if w.open != [] then [w.open] else []
  }

  function Closing(w: Wrap): seq<seq<byte>> {
    if w.close != [] then [w.close] else []
  }

  /** What build writes, line by line: the opening line if any, the wrapped lines, the closing line if any, a blank line. */
  function HeaderLines(w: Wrap, lines: seq<seq<byte>>): seq<seq<byte>> {
    Opening(w) + WrapLines(w.line, lines) + Closing(w) + [[]]
  }

  /** Each line followed by the LF that Fprintln adds. */
  function Terminated(ls: seq<seq<byte>>): (r: seq<byte>)
    ensures |r| >= |ls|
    decreases |ls|
  {
    if ls == [] then [] else Terminated(ls[..|ls| - 1]) + ls[|ls| - 1] + [LF]
  }

  function HeaderBytes(w: Wrap, lines: seq<seq<byte>>): seq<byte> {
    Terminated(HeaderLines(w, lines))
  }

  lemma {:induction false} TerminatedSnoc(ls: seq<seq<byte>>, l: seq<byte>)
    ensures Terminated(ls + [l]) == Terminated(ls) + l + [LF]
  {
    assert (ls + [l])[..|ls|] == ls;
  }

  /** Terminating two runs of lines one after the other terminates them together. */
  lemma {:induction false} TerminatedAppend(xs: seq<seq<byte>>, ys: seq<seq<byte>>)
    ensures Terminated(xs + ys) == Terminated(xs) + Terminated(ys)
    decreases |ys|
  {
    if ys != [] {
      var init, l := ys[..|ys| - 1], ys[|ys| - 1];
      assert ys == init + [l];
      TerminatedAppend(xs, init);
      TerminatedSnoc(init, l);
      assert xs + ys == (xs + init) + [l];
      TerminatedSnoc(xs + init, l);
    } else {
      assert xs + ys == xs;
    }
  }

  /** The loop of build: every template line prefixed, right-trimmed and written out. */
  method WriteLines(prefix: seq<byte>, lines: seq<seq<byte>>) returns (out: seq<byte>)
    ensures out == Terminated(WrapLines(prefix, lines))
  {
    out := [];
    var i := 0;
    while i < |lines|
      invariant 0 <= i <= |lines|
      invariant out == Terminated(WrapLines(prefix, lines[..i]))
    {
      var line := TrimTrailingSpace(prefix + lines[i]);
      assert WrapLines(prefix, lines[..i + 1]) == WrapLines(prefix, lines[..i]) + [line] by {
        assert lines[..i + 1][..i] == lines[..i];
      }
      TerminatedSnoc(WrapLines(prefix, lines[..i]), line);
      out := out + line + [LF];
      i := i + 1;
    }
    assert lines[..i] == lines;
  }

  /** The header's bytes, part by part. */
  lemma {:induction false} HeaderBytesParts(w: Wrap, lines: seq<seq<byte>>)
    ensures HeaderBytes(w, lines)
      == Terminated(Opening(w)) + Terminated(WrapLines(w.line, lines)) + Terminated(Closing(w)) + [LF]
  {
    var o, wl, c := Opening(w), WrapLines(w.line, lines), Closing(w);
    TerminatedAppend(o + wl + c, [[]]);
    TerminatedSnoc([], []);
    TerminatedAppend(o + wl, c);
    TerminatedAppend(o, wl);
  }

  lemma {:induction false} PartTerminated(l: seq<byte>)
    ensures (if l != [] then l + [LF] else []) == Terminated(if l != [] then [l] else [])
  {
    if l != [] {
      TerminatedSnoc([], l);
    }
  }

  /** build: the opening line if any, the template lines, the closing line if any, and a blank line. */
  method RenderHeader(w: Wrap, lines: seq<seq<byte>>) returns (header: seq<byte>)
    ensures header == HeaderBytes(w, lines)
  {
    var opening := if w.open != [] then w.open + [LF] else [];
    var closing := if w.close != [] then w.close + [LF] else [];
    var body := WriteLines(w.line, lines);
    header := opening + body + closing + [LF];
    HeaderBytesParts(w, lines);
    PartTerminated(w.open);
    PartTerminated(w.close);
  }

  /** The wrapped lines are what the template lines become. */
  lemma {:induction false} WrappedLine(w: Wrap, l: seq<byte>)
    requires WellFormedWrap(w) && LF !in l
    ensures var t := TrimTrailingSpace(w.line + l);
      w.line[..2] <= t && LF !in t && t[|t| - 1] != CR
  {
    var t := TrimTrailingSpace(w.line + l);
    assert w.line + l == w.line[..2] + (w.line[2..] + l);
    TrimKeepsPrefix(w.line[..2], w.line[2..] + l);
    assert LF !in w.line + l;
  }

  /** Every header line is free of LF and of a trailing CR, and all but the final blank one are non-empty. */
  lemma {:induction false} HeaderLinesPlain(w: Wrap, lines: seq<seq<byte>>)
    requires WellFormedWrap(w) && forall k | 0 <= k < |lines| :: LF !in lines[k]
    ensures var hl := HeaderLines(w, lines);
      hl[|hl| - 1] == []
      && (forall k | 0 <= k < |hl| :: PlainLine(hl[k]))
      && (forall k | 0 <= k < |hl| - 1 :: hl[k] != [])
  {
    var o, wl, c := Opening(w), WrapLines(w.line, lines), Closing(w);
    forall k | 0 <= k < |wl|
      ensures LF !in wl[k] && wl[k] != [] && wl[k][|wl[k]| - 1] != CR
    {
      WrapLinesAt(w.line, lines, k);
      WrappedLine(w, lines[k]);
    }
    var hl := HeaderLines(w, lines);
    forall k | 0 <= k < |hl|
      ensures PlainLine(hl[k])
      ensures k < |hl| - 1 ==> hl[k] != []
    {
      if k < |o| { assert hl[k] == w.open; }
      else if k < |o| + |wl| { assert hl[k] == wl[k - |o|]; }
      else if k < |o| + |wl| + |c| { assert hl[k] == w.close; }
    }
  }

  // ------------------------------------------------- where the header ends

  /** Two line feeds in a row at p. */
  predicate DoubleAt(t: seq<byte>, p: int) {
    0 <= p && p + 1 < |t| && t[p] == LF && t[p + 1] == LF
  }

  /** Non-empty lines without LF, each terminated, never leave two LFs side by side. */
  lemma {:induction false} TerminatedNoDouble(ls: seq<seq<byte>>)
    requires forall k | 0 <= k < |ls| :: ls[k] != [] && LF !in ls[k]
    ensures forall p :: !DoubleAt(Terminated(ls), p)
    decreases |ls|
  {
    if ls != [] {
      var init, l := ls[..|ls| - 1], ls[|ls| - 1];
      assert forall k | 0 <= k < |init| :: init[k] != [] && LF !in init[k] by {
        assert forall k | 0 <= k < |init| :: init[k] == ls[k];
      }
      TerminatedNoDouble(init);
      var u := Terminated(init);
      var t := Terminated(ls);
      assert t == u + l + [LF];
      forall p ensures !DoubleAt(t, p) {
        if 0 <= p && p + 1 < |u| {
          assert !DoubleAt(u, p);
        } else if p == |u| - 1 {
          assert t[p + 1] == l[0];
        } else if |u| <= p < |u| + |l| {
          assert t[p] == l[p - |u|];
        }
      }
    }
  }

  /** The last line and the blank line after it. */
  lemma {:induction false} TerminatedLastTwo(init: seq<seq<byte>>, last: seq<byte>)
    ensures Terminated(init + [last] + [[]]) == Terminated(init) + last + [LF, LF]
  {
    TerminatedSnoc(init, last);
    TerminatedSnoc(init + [last], []);
  }

  /** The header lines before the final blank one: none empty, none holding LF, the closing line last. */
  lemma {:induction false} HeaderBody(w: Wrap, lines: seq<seq<byte>>)
    requires WellFormedWrap(w) && lines != [] && forall k | 0 <= k < |lines| :: LF !in lines[k]
    ensures var hl := HeaderLines(w, lines); var body := hl[..|hl| - 1];
      hl == body + [[]] && |body| >= 1
      && (forall k | 0 <= k < |body| :: body[k] != [] && LF !in body[k])
      && (w.close != [] ==> |body| >= 2 && body[|body| - 1] == w.close)
  {
    HeaderLinesPlain(w, lines);
    var hl := HeaderLines(w, lines);
    var body := hl[..|hl| - 1];
    assert hl == body + [[]];
    assert forall k | 0 <= k < |body| :: body[k] == hl[k];
    assert |WrapLines(w.line, lines)| >= 1;
  }

  /** A text ending in the closing line (or some non-empty line when there is none) and two LFs. */
  lemma {:induction false} EndsInClose(u: seq<byte>, last: seq<byte>, close: seq<byte>)
    requires close != [] ==> last == close && u != []
    requires close == [] ==> last != []
    ensures var raw := u + last + [LF, LF];
      |raw| > |close| + 2 && raw[|raw| - 2 - |close|..] == close + [LF, LF]
  { }

  /** The rendered header ends with the closing line and a blank line. */
  lemma {:induction false} HeaderTail(w: Wrap, lines: seq<seq<byte>>)
    requires WellFormedWrap(w) && lines != [] && forall k | 0 <= k < |lines| :: LF !in lines[k]
    ensures var raw := HeaderBytes(w, lines);
      |raw| > |w.close| + 2 && raw[|raw| - 2 - |w.close|..] == w.close + [LF, LF]
  {
    HeaderBody(w, lines);
    var hl := HeaderLines(w, lines);
    var body := hl[..|hl| - 1];
    var init, last := body[..|body| - 1], body[|body| - 1];
    assert hl == init + [last] + [[]] by {
      assert body == init + [last];
    }
    TerminatedLastTwo(init, last);
    assert |Terminated(init)| >= |init|;
    EndsInClose(Terminated(init), last, w.close);
  }

  lemma {:induction false} NoDoubleExtend(t: seq<byte>)
    requires forall p :: !DoubleAt(t, p)
    ensures forall p | 0 <= p < |t| - 1 :: !DoubleAt(t + [LF], p)
  {
    forall p | 0 <= p < |t| - 1 ensures !DoubleAt(t + [LF], p) {
      assert !DoubleAt(t, p);
    }
  }

  /** Before its final blank line the header never holds two LFs in a row. */
  lemma {:induction false} HeaderNoDouble(w: Wrap, lines: seq<seq<byte>>)
    requires WellFormedWrap(w) && lines != [] && forall k | 0 <= k < |lines| :: LF !in lines[k]
    ensures var raw := HeaderBytes(w, lines);
      forall p | 0 <= p < |raw| - 2 :: !DoubleAt(raw, p)
  {
    HeaderBody(w, lines);
    var hl := HeaderLines(w, lines);
    var body := hl[..|hl| - 1];
    TerminatedNoDouble(body);
    TerminatedSnoc(body, []);
    assert HeaderBytes(w, lines) == Terminated(body) + [LF];
    NoDoubleExtend(Terminated(body));
  }

  /** In s, the first occurrence of close + LF LF sits at q when it occurs there and no LF pair comes earlier. */
  lemma {:induction false} FirstCloseAt(s: seq<byte>, close: seq<byte>, q: nat)
    requires OccursAt(s, close + [LF, LF], q)
    requires forall p | 0 <= p < q + |close| :: !DoubleAt(s, p)
    ensures Index(s, close + [LF, LF]) == q
  {
    var sub := close + [LF, LF];
    var i := Index(s, sub);
    if 0 <= i < q {
      assert s[i..i + |sub|] == sub;
      var p := i + |close|;
      assert s[p] == sub[|close|] && s[p + 1] == sub[|close| + 1];
      assert DoubleAt(s, p);
    }
  }

  lemma {:induction false} NoDoubleBefore(raw: seq<byte>, file: seq<byte>)
    requires forall p | 0 <= p < |raw| - 2 :: !DoubleAt(raw, p)
    ensures forall p | 0 <= p < |raw| - 2 :: !DoubleAt(raw + file, p)
  {
    forall p | 0 <= p < |raw| - 2 ensures !DoubleAt(raw + file, p) {
      assert !DoubleAt(raw, p);
    }
  }

  lemma {:induction false} OccursAtEnd(raw: seq<byte>, tail: seq<byte>, file: seq<byte>)
    requires |tail| <= |raw| && raw[|raw| - |tail|..] == tail
    ensures OccursAt(raw + file, tail, |raw| - |tail|)
  {
    var q := |raw| - |tail|;
    assert (raw + file)[q..q + |tail|] == raw[q..];
  }

  /** Strip cuts right after a prefix that ends in the closing line and a blank line and holds no earlier LF pair. */
  lemma {:induction false} CutAfter(raw: seq<byte>, close: seq<byte>, file: seq<byte>)
    requires |raw| > |close| + 2 && raw[|raw| - 2 - |close|..] == close + [LF, LF]
    requires forall p | 0 <= p < |raw| - 2 :: !DoubleAt(raw, p)
    ensures StripCut(close, Separators, raw + file) == Some(|raw|)
  {
    OccursAtEnd(raw, close + [LF, LF], file);
    NoDoubleBefore(raw, file);
    FirstCloseAt(raw + file, close, |raw| - 2 - |close|);
    assert Separators[0] == [LF, LF];
  }

  /** Strip finds its cut right after the header that add put in front of the file. */
  lemma {:induction false} HeaderCut(w: Wrap, lines: seq<seq<byte>>, file: seq<byte>)
    requires WellFormedWrap(w) && lines != [] && forall k | 0 <= k < |lines| :: LF !in lines[k]
    ensures var raw := HeaderBytes(w, lines);
      StripCut(w.close, Separators, raw + file) == Some(|raw|)
  {
    HeaderTail(w, lines);
    HeaderNoDouble(w, lines);
    CutAfter(HeaderBytes(w, lines), w.close, file);
  }

  // --------------------------------------------------------- the clue inside

  lemma {:induction false} ContainsWithin<T>(s: seq<T>, sub: seq<T>, pre: seq<T>, post: seq<T>)
    requires Contains(s, sub)
    ensures Contains(pre + s + post, sub)
  {
    var i :| 0 <= i <= |s| - |sub| && OccursAt(s, sub, i);
    var t := pre + s + post;
    assert t[|pre| + i..|pre| + i + |sub|] == s[i..i + |sub|];
    assert OccursAt(t, sub, |pre| + i);
  }

  lemma {:induction false} ContainsTransitive<T>(a: seq<T>, b: seq<T>, c: seq<T>)
    requires Contains(a, b) && Contains(b, c)
    ensures Contains(a, c)
  {
    var i :| 0 <= i <= |a| - |b| && OccursAt(a, b, i);
    var j :| 0 <= j <= |b| - |c| && OccursAt(b, c, j);
    var ab := a[i..i + |b|];
    assert ab == b;
    var x, y := ab[j..j + |c|], a[i + j..i + j + |c|];
    assert forall t | 0 <= t < |c| :: x[t] == y[t];
    assert x == y;
    assert OccursAt(a, c, i + j);
  }

  /** Whatever one line holds, the terminated text holds. */
  lemma {:induction false} TerminatedContains(ls: seq<seq<byte>>, k: nat, sub: seq<byte>)
    requires k < |ls| && Contains(ls[k], sub)
    ensures Contains(Terminated(ls), sub)
    decreases |ls|
  {
    var init, l := ls[..|ls| - 1], ls[|ls| - 1];
    assert Terminated(ls) == Terminated(init) + l + [LF];
    if k == |ls| - 1 {
      ContainsWithin(l, sub, Terminated(init), [LF]);
    } else {
      assert init[k] == ls[k];
      TerminatedContains(init, k, sub);
      ContainsWithin(Terminated(init), sub, [], l + [LF]);
      assert [] + Terminated(init) + (l + [LF]) == Terminated(ls);
    }
  }

  /** A text of a first line, a blank line and a body: the body's first line is one of the scanned lines. */
  lemma {:induction false} ClueLineOf(a: seq<byte>, clue: seq<byte>, rest: seq<byte>) returns (k: nat)
    requires clue != [] && LF !in clue && clue[|clue| - 1] != CR
    ensures var lines := ScanLines(a + [LF] + ([LF] + (clue + rest)));
      k < |lines| && clue <= lines[k]
  {
    var b := clue + rest;
    var first, body := ScanLines(a + [LF]), ScanLines(b);
    var lines := ScanLines(a + [LF] + ([LF] + b));
    assert lines == first + ScanLines([LF] + b) by {
      ScanSplit(a, [LF] + b);
    }
    assert ScanLines([LF] + b) == [[]] + body by {
      assert [] + [LF] + b == [LF] + b && [] + [LF] == [LF];
      ScanSplit([], b);
      ScanOne([]);
    }
    assert body != [] && clue <= body[0] by {
      ScanFirst(clue, rest);
    }
    k := |first| + 1;
    assert lines[k] == body[0];
  }

  lemma {:induction false} PrefixedContains<T>(pre: seq<T>, sub: seq<T>, t: seq<T>)
    requires pre + sub <= t
    ensures Contains(t, sub)
  {
    assert t[|pre|..|pre| + |sub|] == (pre + sub)[|pre|..];
    assert OccursAt(t, sub, |pre|);
  }

  /** A line that begins with the clue keeps it once prefixed and trimmed, so the header holds it. */
  lemma {:induction false} WrappedClue(w: Wrap, lines: seq<seq<byte>>, k: nat, clue: seq<byte>)
    requires WellFormedWrap(w) && k < |lines| && clue <= lines[k]
    requires clue != [] && AsciiNonSpace(clue[|clue| - 1])
    ensures Contains(HeaderBytes(w, lines), clue)
  {
    var wl := WrapLines(w.line, lines);
    assert w.line + clue <= wl[k] by {
      var p, tail := w.line + clue, lines[k][|clue|..];
      assert w.line + lines[k] == p + tail by {
        assert lines[k] == clue + tail;
      }
      TrimKeepsPrefix(p, tail);
      WrapLinesAt(w.line, lines, k);
    }
    PrefixedContains(w.line, clue, wl[k]);
    var hl := HeaderLines(w, lines);
    assert hl[|Opening(w)| + k] == wl[k];
    TerminatedContains(hl, |Opening(w)| + k, clue);
  }

  /** The rendered Apache header holds the clue inspect looks for. */
  lemma {:induction false} HeaderHasClue(w: Wrap, year: nat, holder: seq<byte>)
    requires WellFormedWrap(w)
    ensures Contains(HeaderBytes(w, ScanLines(ApacheText(year, holder))), Bytes(ApacheClue))
  {
    var clue := Bytes(ApacheClue);
    ClueIsPlain();
    var k := ClueLineOf(CopyrightLine(year, holder), clue, Bytes(ApacheRest));
    var lines := ScanLines(ApacheText(year, holder));
    WrappedClue(w, lines, k, clue);
  }

  // ------------------------------------------------------ inspect and rewrite

  /** What inspect reads: the first n bytes of the file, zero-filled past its end. */
  function Window(file: seq<byte>, n: nat): (r: seq<byte>)
    ensures |r| == n
  {
    if |file| >= n then file[..n] else file + seq(n - |file|, _ => 0 as byte)
  }

  /** The window is the file's first n bytes, padded with zero bytes. */
  lemma {:induction false} WindowBytes(file: seq<byte>, n: nat)
    ensures forall i | 0 <= i < n :: Window(file, n)[i] == if i < |file| then file[i] else 0
  { }

  lemma {:induction false} WindowHasPrefix(p: seq<byte>, rest: seq<byte>, n: nat)
    requires |p| <= n
    ensures Contains(Window(p + rest, n), p)
  {
    var win := Window(p + rest, n);
    assert win[..|p|] == p;
    assert OccursAt(win, p, 0);
  }

  /** The found and match flags of the header object. */
  datatype Inspection = Inspection(found: bool, matched: bool)

  /** inspect over the file's bytes: flags already set stay set; a file that yields no bytes fails to read. */
  function Inspected(found0: bool, match0: bool, clue: seq<byte>, raw: seq<byte>, path: string, file: seq<byte>)
    : (r: Result<Inspection, LicenseError>)
    ensures r.Err? <==> file == []
  {
    if file == [] then Err(ReadFailed(path))
    else
      var win := Window(file, |raw| + 10);
      var clued := Index(win, clue) >= 0;
      var found := found0 || clued;
      var matched := match0 || (clued && Index(win, raw) >= 0);
      Ok(Inspection(found || Index(win, CopyrightMark()) >= 0, matched))
  }

  /** inspect finds a header when the window holds the clue or "Copyright ", and a matching one when it holds the clue and the whole header. */
  lemma {:induction false} InspectedFlags(found0: bool, match0: bool, clue: seq<byte>, raw: seq<byte>, path: string, file: seq<byte>)
    ensures var r := Inspected(found0, match0, clue, raw, path, file);
      r.Ok? ==> var win := Window(file, |raw| + 10);
      (r.value.found <==> found0 || Contains(win, clue) || Contains(win, CopyrightMark()))
      && (r.value.matched <==> match0 || (Contains(win, clue) && Contains(win, raw)))
  {
    var win := Window(file, |raw| + 10);
    IndexFindsContained(win, clue);
    IndexFindsContained(win, raw);
    IndexFindsContained(win, CopyrightMark());
  }

  /** The blank-line separators strip tries, in order. */
  const Separators: seq<seq<byte>> := [[LF, LF], [CR, CR], [CR, LF, CR, LF]]

  /** Where strip cuts: just past the first closing line + separator found at a positive offset, trying the separators in order. */
  function StripCut(close: seq<byte>, seps: seq<seq<byte>>, file: seq<byte>): (r: Option<nat>)
    ensures r.Some? ==> r.value <= |file|
    decreases |seps|
  {
    if seps == [] then None
    else
      var i := Index(file, close + seps[0]);
      if i > 0 then Some(i + |close + seps[0]|) else StripCut(close, seps[1..], file)
  }

  /** The cut follows the first separator, in order, that occurs after the file's first byte; there is none only when no separator does. */
  lemma {:induction false} StripCutFirst(close: seq<byte>, seps: seq<seq<byte>>, file: seq<byte>)
    ensures var r := StripCut(close, seps, file);
      (r.Some? ==> exists k | 0 <= k < |seps| ::
        Index(file, close + seps[k]) > 0 && r.value == Index(file, close + seps[k]) + |close + seps[k]|
        && forall j | 0 <= j < k :: Index(file, close + seps[j]) <= 0)
      && (r.None? <==> forall k | 0 <= k < |seps| :: Index(file, close + seps[k]) <= 0)
    decreases |seps|
  {
    if seps != [] && Index(file, close + seps[0]) <= 0 {
      StripCutFirst(close, seps[1..], file);
      assert forall k | 1 <= k < |seps| :: seps[k] == seps[1..][k - 1];
      var r := StripCut(close, seps, file);
      if r.Some? {
        var k :| 0 <= k < |seps[1..]| && Index(file, close + seps[1..][k]) > 0
          && r.value == Index(file, close + seps[1..][k]) + |close + seps[1..][k]|
          && forall j | 0 <= j < k :: Index(file, close + seps[1..][j]) <= 0;
        assert Index(file, close + seps[k + 1]) > 0;
      }
    }
  }

  /** rewrite's result: the new file contents, or None when nothing is written. */
  function Rewritten(action: string, close: seq<byte>, raw: seq<byte>, file: seq<byte>)
    : (r: Result<Option<seq<byte>>, LicenseError>)
    ensures r.Err? <==> action != "add" && action != "strip"
    ensures action == "add" ==> r == Ok(Some(raw + file))
  {
    if action != "add" && action != "strip" then Err(UnsupportedAction(action))
    else if action == "add" then Ok(Some(raw + file))
    else
      match StripCut(close, Separators, file)
      case None => Ok(None)
      case Some(n) => Ok(Some(file[n..]))
  }

  /** strip writes nothing when no cut is found, and otherwise what follows the cut. */
  lemma {:induction false} RewrittenStrip(close: seq<byte>, raw: seq<byte>, file: seq<byte>)
    ensures var r := Rewritten("strip", close, raw, file);
      match StripCut(close, Separators, file)
      case None => r == Ok(None)
      case Some(n) => r.Ok? && r.value.Some? && file[..n] + r.value.value == file
  {
    match StripCut(close, Separators, file)
    case None =>
    case Some(n) =>
      assert file[..n] + file[n..] == file;
  }

  // ------------------------------------------------- build, add and strip

  /** The fields build and inspect read. */
  datatype HeaderConfig = HeaderConfig(
    filePath: string, fileExtension: string, year: nat, holder: seq<byte>, licenseType: string,
    templates: map<string, seq<Piece>>, clues: map<string, string>)

  /** A header of Apache type looking things up in the package's own tables. */
  predicate ApacheConfig(c: HeaderConfig) {
    c.licenseType == "apache" && c.templates == LicenseTemplates && c.clues == LicenseClues
  }

  /** build: the comment style for the file, and the header rendered in it. */
  function Built(c: HeaderConfig): (r: Result<(Wrap, seq<byte>), LicenseError>)
    ensures r.Ok? <==> WrapFor(ExtensionFor(c.fileExtension, c.filePath), c.filePath).Ok?
    ensures r.Ok? ==> r.value.0 == WrapFor(ExtensionFor(c.fileExtension, c.filePath), c.filePath).value
  {
    var w :- WrapFor(ExtensionFor(c.fileExtension, c.filePath), c.filePath);
    Ok((w, HeaderBytes(w, ScanLines(TemplateText(c.templates, c.licenseType, c.year, c.holder)))))
  }

  /** AddLicense once build has given the comment style w and the header raw. */
  function AddAfterBuild(w: Wrap, raw: seq<byte>, clue: seq<byte>, path: string, found0: bool, match0: bool, file: seq<byte>)
    : Result<Option<seq<byte>>, LicenseError>
  {
    var i :- Inspected(found0, match0, clue, raw, path, file);
    if i.found then
      if i.matched then Ok(None) else Err(HeaderMismatch(path))
    else
      match Rewritten("add", w.close, raw, file)
      case Ok(x) => Ok(x)
      case Err(e) => Err(AddFailed(e))
  }

  /** AddLicense: a found header that does not match is an error, a matching one is left alone, otherwise the header is prepended. */
  function AddOutcome(c: HeaderConfig, found0: bool, match0: bool, file: seq<byte>)
    : Result<Option<seq<byte>>, LicenseError>
  {
    var built :- Built(c);
    AddAfterBuild(built.0, built.1, Clue(c.clues, c.licenseType), c.filePath, found0, match0, file)
  }

  /** StripLicense once build has given the comment style w and the header raw. */
  function StripAfterBuild(w: Wrap, raw: seq<byte>, clue: seq<byte>, path: string, found0: bool, match0: bool, file: seq<byte>)
    : Result<Option<seq<byte>>, LicenseError>
  {
    var i :- Inspected(found0, match0, clue, raw, path, file);
    if !i.found then Ok(None)
    else
      match Rewritten("strip", w.close, raw, file)
      case Ok(x) => Ok(x)
      case Err(e) => Err(StripFailed(e))
  }

  /** StripLicense: rewrites only when inspect found a header. */
  function StripOutcome(c: HeaderConfig, found0: bool, match0: bool, file: seq<byte>)
    : Result<Option<seq<byte>>, LicenseError>
  {
    var built :- Built(c);
    StripAfterBuild(built.0, built.1, Clue(c.clues, c.licenseType), c.filePath, found0, match0, file)
  }

  /** Once build has succeeded, AddLicense and StripLicense go on with its comment style and header. */
  lemma {:induction false} AddOutcomeAfterBuild(c: HeaderConfig, found0: bool, match0: bool, file: seq<byte>)
    ensures match Built(c)
      case Err(e) => AddOutcome(c, found0, match0, file) == Err(e)
      case Ok(b) => AddOutcome(c, found0, match0, file) == AddAfterBuild(b.0, b.1, Clue(c.clues, c.licenseType), c.filePath, found0, match0, file)
  { }

  lemma {:induction false} StripOutcomeAfterBuild(c: HeaderConfig, found0: bool, match0: bool, file: seq<byte>)
    ensures match Built(c)
      case Err(e) => StripOutcome(c, found0, match0, file) == Err(e)
      case Ok(b) => StripOutcome(c, found0, match0, file) == StripAfterBuild(b.0, b.1, Clue(c.clues, c.licenseType), c.filePath, found0, match0, file)
  { }

  /** The Apache header build renders, with the facts strip and inspect rely on. */
  lemma {:induction false} BuiltApache(c: HeaderConfig)
    requires ApacheConfig(c) && Built(c).Ok?
    ensures var (w, raw) := Built(c).value;
      Contains(raw, Clue(c.clues, c.licenseType))
      && forall file :: StripCut(w.close, Separators, raw + file) == Some(|raw|)
  {
    var w := Built(c).value.0;
    ExecuteApache(c.year, c.holder);
    WrapForWellFormed(ExtensionFor(c.fileExtension, c.filePath), c.filePath);
    var lines := ScanLines(ApacheText(c.year, c.holder));
    assert lines != [];
    ScanLinesFree(ApacheText(c.year, c.holder));
    HeaderHasClue(w, c.year, c.holder);
    forall file ensures StripCut(w.close, Separators, HeaderBytes(w, lines) + file) == Some(|HeaderBytes(w, lines)|) {
      HeaderCut(w, lines, file);
    }
  }

  /** A header holding the clue, found at the front of the window: inspect reports it found and matching. */
  lemma {:induction false} InspectFindsHeader(clue: seq<byte>, raw: seq<byte>, path: string, file: seq<byte>)
    requires Contains(raw, clue)
    ensures raw + file != [] ==> Inspected(false, false, clue, raw, path, raw + file) == Ok(Inspection(true, true))
  {
    WindowHasPrefix(raw, file, |raw| + 10);
    ContainsTransitive(Window(raw + file, |raw| + 10), raw, clue);
    InspectedFlags(false, false, clue, raw, path, raw + file);
  }

  /** What AddLicense writes is the header followed by the old contents. */
  lemma {:induction false} AddedPrepends(w: Wrap, raw: seq<byte>, clue: seq<byte>, path: string, found0: bool, match0: bool,
                      file: seq<byte>, added: seq<byte>)
    requires AddAfterBuild(w, raw, clue, path, found0, match0, file) == Ok(Some(added))
    ensures added == raw + file
  { }

  lemma {:induction false} StripPrefixed(w: Wrap, raw: seq<byte>, clue: seq<byte>, path: string, file: seq<byte>)
    requires Inspected(false, false, clue, raw, path, raw + file) == Ok(Inspection(true, true))
    requires StripCut(w.close, Separators, raw + file) == Some(|raw|)
    ensures StripAfterBuild(w, raw, clue, path, false, false, raw + file) == Ok(Some(file))
  {
    assert (raw + file)[|raw|..] == file;
  }

  lemma {:induction false} AddFindsHeader(w: Wrap, raw: seq<byte>, clue: seq<byte>, path: string, file: seq<byte>)
    requires Inspected(false, false, clue, raw, path, raw + file) == Ok(Inspection(true, true))
    ensures AddAfterBuild(w, raw, clue, path, false, false, raw + file) == Ok(None)
  { }

  /** Stripping a file that AddLicense has just given a header gives the file back. */
  lemma {:induction false} StripAfterAdd(c: HeaderConfig, file: seq<byte>, added: seq<byte>)
    requires ApacheConfig(c)
    requires AddOutcome(c, false, false, file) == Ok(Some(added))
    ensures StripOutcome(c, false, false, added) == Ok(Some(file))
  {
    var (w, raw) := Built(c).value;
    var clue := Clue(c.clues, c.licenseType);
    BuiltApache(c);
    AddedPrepends(w, raw, clue, c.filePath, false, false, file, added);
    InspectFindsHeader(clue, raw, c.filePath, file);
    StripPrefixed(w, raw, clue, c.filePath, file);
  }

  /** AddLicense on a file it has just given a header finds that header and writes nothing. */
  lemma {:induction false} AddIdempotent(c: HeaderConfig, file: seq<byte>, added: seq<byte>)
    requires ApacheConfig(c)
    requires AddOutcome(c, false, false, file) == Ok(Some(added))
    ensures AddOutcome(c, false, false, added) == Ok(None)
  {
    var (w, raw) := Built(c).value;
    var clue := Clue(c.clues, c.licenseType);
    BuiltApache(c);
    AddedPrepends(w, raw, clue, c.filePath, false, false, file, added);
    InspectFindsHeader(clue, raw, c.filePath, file);
    AddFindsHeader(w, raw, clue, c.filePath, file);
  }

  /** With neither mark in the window and no flag set, strip leaves the file alone. */
  lemma {:induction false} StripWithoutHeader(c: HeaderConfig, file: seq<byte>)
    requires Built(c).Ok? && file != []
    requires var win := Window(file, |Built(c).value.1| + 10);
      !Contains(win, Clue(c.clues, c.licenseType)) && !Contains(win, CopyrightMark())
    ensures StripOutcome(c, false, false, file) == Ok(None)
  { }

  // ------------------------------------------------------- the header object

  /** The largest Year a uint64 holds, plus one. */
  const Uint64Bound: nat := 0x1_0000_0000_0000_0000

  /** LicenseHeader, with the file it works on passed in as bytes. */
  class LicenseHeader {
    var filePath: string
    var fileExtension: string
    var year: nat
    var copyrightHolder: seq<byte>
    var licenseType: string
    var wrapChars: Option<Wrap>
    var raw: seq<byte>
    var offset: int
    var found: bool
    var matched: bool
    var templates: map<string, seq<Piece>>
    var clues: map<string, string>

    /** The fields build and inspect read. */
    function Config(): HeaderConfig
      reads this
    {
      HeaderConfig(filePath, fileExtension, year, copyrightHolder, licenseType, templates, clues)
    }

    /** NewLicenseHeader: everything zero except the Apache licence type. */
    constructor ()
      ensures Config() == HeaderConfig("", "", 0, [], "apache", LicenseTemplates, LicenseClues)
      ensures wrapChars == None && raw == [] && offset == 0 && !found && !matched
    {
      filePath, fileExtension, year, copyrightHolder, licenseType := "", "", 0, [], "apache";
      wrapChars, raw, offset, found, matched := None, [], 0, false, false;
      templates, clues := LicenseTemplates, LicenseClues;
    }

    method AddFilePath(fp: string) returns (err: Option<LicenseError>)
      modifies `filePath
      ensures fp == "" ==> err == Some(EmptyFilePath) && filePath == old(filePath)
      ensures fp != "" ==> err == None && filePath == fp
    {
      if fp == "" {
        return Some(EmptyFilePath);
      }
      filePath := fp;
      return None;
    }

    method AddCopyrightHolder(holder: seq<byte>) returns (err: Option<LicenseError>)
      modifies `copyrightHolder
      ensures holder == [] ==> err == Some(EmptyCopyrightHolder) && copyrightHolder == old(copyrightHolder)
      ensures holder != [] ==> err == None && copyrightHolder == holder
    {
      if holder == [] {
        return Some(EmptyCopyrightHolder);
      }
      copyrightHolder := holder;
      return None;
    }

    method AddYear(i: nat) returns (err: Option<LicenseError>)
      requires i < Uint64Bound
      modifies `year
      ensures i == 0 ==> err == Some(EmptyYear) && year == old(year)
      ensures i != 0 ==> err == None && year == i
    {
      if i == 0 {
        return Some(EmptyYear);
      }
      year := i;
      return None;
    }

    /** "" stands for "apache"; any other type than these two is refused. */
    method AddLicenseType(t: string) returns (err: Option<LicenseError>)
      modifies `licenseType
      ensures t == "" || t == "apache" ==> err == None && licenseType == "apache"
      ensures t != "" && t != "apache" ==> err == Some(UnsupportedLicenseType(t)) && licenseType == old(licenseType)
    {
      var s := t;
      if s == "apache" {
      } else if s == "" {
        s := "apache";
      } else {
        return Some(UnsupportedLicenseType(s));
      }
      licenseType := s;
      return None;
    }

    /** getWrapChars: records the path's extension when none is set, then picks the comment style for it. */
    method GetWrapChars() returns (err: Option<LicenseError>)
      modifies `fileExtension, `wrapChars
      ensures fileExtension == ExtensionFor(old(fileExtension), filePath)
      ensures match WrapFor(fileExtension, filePath)
        case Ok(w) => err == None && wrapChars == Some(w)
        case Err(e) => err == Some(e) && wrapChars == old(wrapChars)
    {
      if fileExtension == "" {
        fileExtension := Ext(filePath);
      }
      if fileExtension == "" {
        return Some(NoFileExtension(filePath));
      }
      if fileExtension == ".go" {
        wrapChars := Some(Wrap([], Bytes("// "), []));
      } else if fileExtension == ".js" {
        wrapChars := Some(Wrap(Bytes("/**"), Bytes(" * "), Bytes(" */")));
      } else {
        return Some(UnsupportedExtension(fileExtension, filePath));
      }
      return None;
    }

    /** build: the comment style, then the template rendered line by line into raw. */
    method Build() returns (err: Option<LicenseError>)
      modifies `fileExtension, `wrapChars, `raw
      ensures fileExtension == ExtensionFor(old(fileExtension), filePath)
      ensures match Built(old(Config()))
        case Ok(b) => err == None && wrapChars == Some(b.0) && raw == b.1
        case Err(e) => err == Some(e) && wrapChars == old(wrapChars) && raw == old(raw)
    {
      err := GetWrapChars();
      if err.Some? {
        return;
      }
      var w := wrapChars.value;
      var lines := ScanLines(TemplateText(templates, licenseType, year, copyrightHolder));
      raw := RenderHeader(w, lines);
    }

    /** inspect: looks at the first len(raw)+10 bytes of the file for the clue, the whole header and "Copyright ". */
    method Inspect(file: seq<byte>) returns (err: Option<LicenseError>)
      modifies `offset, `found, `matched
      ensures offset == |raw| + 10
      ensures match Inspected(old(found), old(matched), Clue(clues, licenseType), raw, filePath, file)
        case Ok(i) => err == None && found == i.found && matched == i.matched
        case Err(e) => err == Some(e) && found == old(found) && matched == old(matched)
    {
      offset := |raw| + 10;
      if file == [] {
        return Some(ReadFailed(filePath));
      }
      var header := Window(file, offset);
      if Index(header, Clue(clues, licenseType)) >= 0 {
        found := true;
        if Index(header, raw) >= 0 {
          matched := true;
        }
      }
      if !found && Index(header, CopyrightMark()) >= 0 {
        found := true;
      }
      return None;
    }

    /** rewrite: the new file contents for "add" or "strip", None when strip finds no cut. */
    method Rewrite(action: string, file: seq<byte>) returns (r: Result<Option<seq<byte>>, LicenseError>)
      requires action == "strip" ==> wrapChars.Some?
      ensures r == Rewritten(action, if wrapChars.Some? then wrapChars.value.close else [], raw, file)
    {
      if action != "add" && action != "strip" {
        return Err(UnsupportedAction(action));
      }
      if action == "add" {
        return Ok(Some(raw + file));
      }
      var close := wrapChars.value.close;
      var offset: int := 0;
      var k := 0;
      while k < |Separators|
        invariant 0 <= k <= |Separators|
        invariant offset <= 0
        invariant StripCut(close, Separators, file) == StripCut(close, Separators[k..], file)
      {
        offset := Index(file, close + Separators[k]);
        assert Separators[k..][1..] == Separators[k + 1..];
        if offset > 0 {
          offset := offset + |close + Separators[k]|;
          break;
        }
        k := k + 1;
      }
      if offset < 1 {
        assert Separators[k..] == [];
        return Ok(None);
      }
      return Ok(Some(file[offset..]));
    }
  }

  /** The rest of AddLicense once build has succeeded: inspect, then prepend the header unless one is there. */
  method AddBuilt(h: LicenseHeader, file: seq<byte>) returns (r: Result<Option<seq<byte>>, LicenseError>)
    requires h.wrapChars.Some?
    modifies h`offset, h`found, h`matched
    ensures r == AddAfterBuild(h.wrapChars.value, h.raw, Clue(h.clues, h.licenseType), h.filePath, old(h.found), old(h.matched), file)
  {
    var err := h.Inspect(file);
    if err.Some? {
      return Err(err.value);
    }
    if h.found {
      if !h.matched {
        return Err(HeaderMismatch(h.filePath));
      }
      return Ok(None);
    }
    r := h.Rewrite("add", file);
    match r
    case Err(e) => r := Err(AddFailed(e));
    case Ok(_) =>
  }

  /** AddLicense for the file's contents: build, inspect, and prepend the header unless one is there. */
  method AddLicense(h: LicenseHeader, file: seq<byte>) returns (r: Result<Option<seq<byte>>, LicenseError>)
    modifies h`fileExtension, h`wrapChars, h`raw, h`offset, h`found, h`matched
    ensures match Built(old(h.Config()))
      case Err(e) => r == Err(e)
      case Ok(b) => r == AddAfterBuild(b.0, b.1, Clue(h.clues, h.licenseType), h.filePath, old(h.found), old(h.matched), file)
    ensures h.fileExtension == ExtensionFor(old(h.fileExtension), h.filePath)
  {
    var err := h.Build();
    if err.Some? {
      return Err(err.value);
    }
    r := AddBuilt(h, file);
  }

  /** The rest of StripLicense once build has succeeded: inspect, then cut the header off when one is found. */
  method StripBuilt(h: LicenseHeader, file: seq<byte>) returns (r: Result<Option<seq<byte>>, LicenseError>)
    requires h.wrapChars.Some?
    modifies h`offset, h`found, h`matched
    ensures r == StripAfterBuild(h.wrapChars.value, h.raw, Clue(h.clues, h.licenseType), h.filePath, old(h.found), old(h.matched), file)
  {
    var err := h.Inspect(file);
    if err.Some? {
      return Err(err.value);
    }
    if h.found {
      r := h.Rewrite("strip", file);
      match r
      case Err(e) => r := Err(StripFailed(e));
      case Ok(_) =>
      return;
    }
    return Ok(None);
  }

  /** StripLicense for the file's contents: build, inspect, and cut the header off when one is found. */
  method StripLicense(h: LicenseHeader, file: seq<byte>) returns (r: Result<Option<seq<byte>>, LicenseError>)
    modifies h`fileExtension, h`wrapChars, h`raw, h`offset, h`found, h`matched
    ensures match Built(old(h.Config()))
      case Err(e) => r == Err(e)
      case Ok(b) => r == StripAfterBuild(b.0, b.1, Clue(h.clues, h.licenseType), h.filePath, old(h.found), old(h.matched), file)
    ensures h.fileExtension == ExtensionFor(old(h.fileExtension), h.filePath)
  {
    var err := h.Build();
    if err.Some? {
      return Err(err.value);
    }
    r := StripBuilt(h, file);
  }
}
