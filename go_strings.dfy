// The parts of Go's `strings`, `bytes` and `strconv` packages that the modelled
// code calls, written out over `seq<char>` and byte sequences so that their edge
// cases are explicit.
module GoStrings {
  import opened Wrappers

  newtype byte = x: int | 0 <= x < 256

  // ---------------------------------------------------------------- search

  predicate OccursAt<T(==)>(s: seq<T>, sub: seq<T>, i: int) {
    0 <= i && i + |sub| <= |s| && s[i..i + |sub|] == sub
  }

  predicate Contains<T(==)>(s: seq<T>, sub: seq<T>) {
    exists i :: 0 <= i <= |s| - |sub| && OccursAt(s, sub, i)
  }

  /** strings.Index: the first position of `sub` in `s`, or -1. */
  function Index<T(==)>(s: seq<T>, sub: seq<T>): (r: int)
    ensures -1 <= r <= |s|
    ensures r >= 0 ==> OccursAt(s, sub, r)
    ensures r >= 0 ==> forall j :: 0 <= j < r ==> !OccursAt(s, sub, j)
    ensures r < 0 ==> forall j :: 0 <= j <= |s| - |sub| ==> !OccursAt(s, sub, j)
    decreases |s|
  {
    if |sub| > |s| then -1
    else if s[..|sub|] == sub then 0
    else
      var k := Index(s[1..], sub);
      assert forall j :: 1 <= j <= |s| - |sub| ==> (OccursAt(s, sub, j) <==> OccursAt(s[1..], sub, j - 1)) by {
        forall j | 1 <= j <= |s| - |sub| ensures OccursAt(s, sub, j) <==> OccursAt(s[1..], sub, j - 1) {
          OccursShift(s, sub, j);
        }
      }
      if k < 0 then -1 else k + 1
  }

  lemma OccursShift<T>(s: seq<T>, sub: seq<T>, j: int)
    requires 1 <= j <= |s| - |sub|
    ensures OccursAt(s, sub, j) <==> OccursAt(s[1..], sub, j - 1)
  {
    var a, b := s[j..j + |sub|], s[1..][j - 1..j - 1 + |sub|];
    assert forall k | 0 <= k < |sub| :: a[k] == b[k];
    assert s[j..j + |sub|] == s[1..][j - 1..j - 1 + |sub|];
  }

  lemma IndexFindsContained<T>(s: seq<T>, sub: seq<T>)
    ensures Index(s, sub) >= 0 <==> Contains(s, sub)
  {
    if Contains(s, sub) {
      var i :| 0 <= i <= |s| - |sub| && OccursAt(s, sub, i);
      assert Index(s, sub) >= 0;
    }
  }

  /** For a single character, Index finds it exactly when it occurs. */
  lemma CharIndex(s: string, c: char)
    ensures Index(s, [c]) >= 0 <==> c in s
  {
    if c in s {
      var k :| 0 <= k < |s| && s[k] == c;
      assert s[k..k + 1] == [c];
      assert OccursAt(s, [c], k);
    }
    if Index(s, [c]) >= 0 {
      assert s[Index(s, [c])..Index(s, [c]) + 1] == [c];
      assert s[Index(s, [c])] == c;
    }
  }

  predicate HasPrefix(s: string, p: string) {
    |p| <= |s| && s[..|p|] == p
  }

  predicate HasSuffix(s: string, p: string) {
    |p| <= |s| && s[|s| - |p|..] == p
  }

  function TrimPrefix(s: string, p: string): string {
    if HasPrefix(s, p) then s[|p|..] else s
  }

  // ------------------------------------------------------------- replacing

  /** strings.Replace(s, pat, repl, 1) for a non-empty `pat`. */
  function ReplaceFirst(s: string, pat: string, repl: string): string
    requires |pat| > 0
  {
    var i := Index(s, pat);
    if i < 0 then s else s[..i] + repl + s[i + |pat|..]
  }

  /** strings.ReplaceAll(s, pat, repl) for a non-empty `pat`: left to right, non-overlapping. */
  function ReplaceAll(s: string, pat: string, repl: string): string
    requires |pat| > 0
    decreases |s|
  {
    var i := Index(s, pat);
    if i < 0 then s else s[..i] + repl + ReplaceAll(s[i + |pat|..], pat, repl)
  }

  /** Replacing every occurrence of a single character leaves none behind when the replacement has none. */
  lemma {:induction false} ReplaceAllCharRemoves(s: string, c: char, repl: string)
    requires c !in repl
    ensures c !in ReplaceAll(s, [c], repl)
    decreases |s|
  {
    var i := Index(s, [c]);
    if i < 0 {
      forall j | 0 <= j < |s| ensures s[j] != c {
        assert !OccursAt(s, [c], j);
        assert s[j..j + 1] == [s[j]];
      }
    } else {
      forall j | 0 <= j < i ensures s[j] != c {
        assert !OccursAt(s, [c], j);
        assert s[j..j + 1] == [s[j]];
      }
      ReplaceAllCharRemoves(s[i + 1..], c, repl);
    }
  }

  /** Replacing never brings in a character that neither the string nor the
      replacement has. */
  lemma {:induction false} ReplaceAllKeepsAbsent(s: string, pat: string, repl: string, c: char)
    requires |pat| > 0 && c !in s && c !in repl
    ensures c !in ReplaceAll(s, pat, repl)
    decreases |s|
  {
    var i := Index(s, pat);
    if i >= 0 {
      var head, rest := s[..i], s[i + |pat|..];
      assert s == head + s[i..i + |pat|] + rest;
      ReplaceAllKeepsAbsent(rest, pat, repl, c);
      assert ReplaceAll(s, pat, repl) == head + repl + ReplaceAll(rest, pat, repl);
    }
  }

  /** A string without `pat` is left as it is. */
  lemma ReplaceAllAbsent(s: string, pat: string, repl: string)
    requires |pat| > 0 && !Contains(s, pat)
    ensures ReplaceAll(s, pat, repl) == s
  {
    IndexFindsContained(s, pat);
  }

  /** Index finds an occurrence with none before it. */
  lemma IndexIs<T>(s: seq<T>, sub: seq<T>, k: int)
    requires OccursAt(s, sub, k) && forall j | 0 <= j < k :: !OccursAt(s, sub, j)
    ensures Index(s, sub) == k
  {
  }

  /** A sequence without the pattern's first element does not contain it. */
  lemma NotContainsFirst<T>(s: seq<T>, sub: seq<T>)
    requires |sub| > 0 && sub[0] !in s
    ensures !Contains(s, sub)
  {
    forall i | 0 <= i <= |s| - |sub| ensures !OccursAt(s, sub, i) {
      assert s[i..i + |sub|][0] == s[i];
    }
  }

  /** Replacing a pattern that occurs once, with its first character nowhere else. */
  lemma ReplaceAllOnce(a: string, pat: string, b: string, repl: string)
    requires |pat| > 0 && pat[0] !in a && pat[0] !in b
    ensures ReplaceAll(a + pat + b, pat, repl) == a + repl + b
  {
    var s := a + pat + b;
    assert s[|a|..|a| + |pat|] == pat;
    forall j | 0 <= j < |a| ensures !OccursAt(s, pat, j) {
      assert s[j..j + |pat|][0] == a[j];
    }
    IndexIs(s, pat, |a|);
    assert s[..|a|] == a;
    assert s[|a| + |pat|..] == b;
    NotContainsFirst(b, pat);
    ReplaceAllAbsent(b, pat, repl);
  }

  // -------------------------------------------------------------- ordering

  /** Go's a <= b on strings: byte-wise lexicographic order, which on UTF-8 is
      the order of the code points. */
  predicate StringLe(a: string, b: string)
    decreases |a|
  {
    a == [] || (b != [] && (a[0] < b[0] || (a[0] == b[0] && StringLe(a[1..], b[1..]))))
  }

  /** Go's a < b on strings. */
  predicate StringLess(a: string, b: string) {
    !StringLe(b, a)
  }

  /** Any two strings are ordered one way or the other. */
  lemma {:induction false} StringLeTotal(a: string, b: string)
    ensures StringLe(a, b) || StringLe(b, a)
    decreases |a|
  {
    if a != [] && b != [] && a[0] == b[0] {
      StringLeTotal(a[1..], b[1..]);
    }
  }

  lemma {:induction false} StringLeTransitive(a: string, b: string, c: string)
    requires StringLe(a, b) && StringLe(b, c)
    ensures StringLe(a, c)
    decreases |a|
  {
    if a != [] && a[0] == b[0] && b[0] == c[0] {
      StringLeTransitive(a[1..], b[1..], c[1..]);
    }
  }

  lemma {:induction false} StringLeAntisymmetric(a: string, b: string)
    requires StringLe(a, b) && StringLe(b, a)
    ensures a == b
    decreases |a|
  {
    if a != [] {
      StringLeAntisymmetric(a[1..], b[1..]);
      assert a == [a[0]] + a[1..] && b == [b[0]] + b[1..];
    }
  }

  // -------------------------------------------------------------- splitting

  /** strings.Split(s, sep) for a non-empty separator. */
  function Split(s: string, sep: string): (r: seq<string>)
    requires |sep| > 0
    ensures |r| >= 1
    decreases |s|
  {
    var i := Index(s, sep);
    if i < 0 then [s] else [s[..i]] + Split(s[i + |sep|..], sep)
  }

  /** strings.Join. */
  function Join(parts: seq<string>, sep: string): string
    decreases |parts|
  {
    if |parts| == 0 then ""
    else if |parts| == 1 then parts[0]
    else parts[0] + sep + Join(parts[1..], sep)
  }

  /** Join undoes Split. */
  lemma {:induction false} JoinSplit(s: string, sep: string)
    requires |sep| > 0
    ensures Join(Split(s, sep), sep) == s
    decreases |s|
  {
    var i := Index(s, sep);
    if i >= 0 {
      var rest := s[i + |sep|..];
      var parts := Split(rest, sep);
      JoinSplit(rest, sep);
      assert Split(s, sep) == [s[..i]] + parts;
      JoinCons(s[..i], parts, sep);
      CutAround(s, sep, i);
    }
  }

  lemma JoinCons(p: string, parts: seq<string>, sep: string)
    requires |parts| >= 1
    ensures Join([p] + parts, sep) == p + sep + Join(parts, sep)
  {
    assert ([p] + parts)[1..] == parts;
  }

  lemma CutAround(s: string, sep: string, i: int)
    requires OccursAt(s, sep, i)
    ensures s == s[..i] + sep + s[i + |sep|..]
  {
    assert s[i..i + |sep|] == sep;
    assert s == s[..i] + s[i..i + |sep|] + s[i + |sep|..];
  }

  /** Split of a string without the separator is that string alone. */
  lemma SplitAbsent(s: string, sep: string)
    requires |sep| > 0 && !Contains(s, sep)
    ensures Split(s, sep) == [s]
  {
    IndexFindsContained(s, sep);
  }

  /** A single-character separator does not occur in any part of the split. */
  lemma {:induction false} SplitPartsFree(s: string, c: char)
    ensures forall k :: 0 <= k < |Split(s, [c])| ==> c !in Split(s, [c])[k]
    decreases |s|
  {
    var i := Index(s, [c]);
    forall j | 0 <= j < (if i < 0 then |s| else i) ensures s[j] != c {
      assert !OccursAt(s, [c], j);
      assert s[j..j + 1] == [s[j]];
    }
    if i >= 0 {
      SplitPartsFree(s[i + 1..], c);
    }
  }

  /** Splitting at a single-character separator cuts at its first occurrence. */
  lemma SplitAtFirst(a: string, c: char, rest: string)
    requires c !in a
    ensures Split(a + [c] + rest, [c]) == [a] + Split(rest, [c])
  {
    var s := a + [c] + rest;
    assert s[|a|..|a| + 1] == [c];
    assert OccursAt(s, [c], |a|);
    forall j | 0 <= j < |a| ensures !OccursAt(s, [c], j) {
      assert s[j..j + 1] == [a[j]];
      assert a[j] != c;
    }
    var i := Index(s, [c]);
    assert i == |a|;
    assert s[..i] == a;
    assert s[i + 1..] == rest;
  }

  /** strings.SplitN(s, sep, 2): at most two parts, cut at the first separator. */
  function SplitN2(s: string, sep: string): (r: seq<string>)
    ensures |r| == 1 || |r| == 2
    ensures |r| == 1 <==> Index(s, sep) < 0
  {
    var i := Index(s, sep);
    if i < 0 then [s] else [s[..i], s[i + |sep|..]]
  }

  // -------------------------------------------------------------- trimming

  /** unicode.IsSpace. */
  predicate IsSpace(c: char) {
    c == '\t' || c == '\n' || c == '\U{000B}' || c == '\U{000C}' || c == '\r' || c == ' '
    || c == '\U{0085}' || c == '\U{00A0}' || c == '\U{1680}'
    || ('\U{2000}' <= c <= '\U{200A}') || c == '\U{2028}' || c == '\U{2029}'
    || c == '\U{202F}' || c == '\U{205F}' || c == '\U{3000}'
  }

  function TrimLeftSpace(s: string): (r: string)
    ensures |r| <= |s| && r == s[|s| - |r|..]
    ensures r == [] || !IsSpace(r[0])
    ensures forall i :: 0 <= i < |s| - |r| ==> IsSpace(s[i])
    decreases |s|
  {
    if |s| > 0 && IsSpace(s[0]) then TrimLeftSpace(s[1..]) else s
  }

  function TrimRightSpace(s: string): (r: string)
    ensures |r| <= |s| && r == s[..|r|]
    ensures r == [] || !IsSpace(r[|r| - 1])
    ensures forall i :: |r| <= i < |s| ==> IsSpace(s[i])
    decreases |s|
  {
    if |s| > 0 && IsSpace(s[|s| - 1]) then TrimRightSpace(s[..|s| - 1]) else s
  }

  function TrimLeftSet(s: string, cut: set<char>): (r: string)
    ensures |r| <= |s| && r == s[|s| - |r|..]
    ensures r == [] || r[0] !in cut
    ensures forall i :: 0 <= i < |s| - |r| ==> s[i] in cut
    decreases |s|
  {
    if |s| > 0 && s[0] in cut then TrimLeftSet(s[1..], cut) else s
  }

  function TrimRightSet(s: string, cut: set<char>): (r: string)
    ensures |r| <= |s| && r == s[..|r|]
    ensures r == [] || r[|r| - 1] !in cut
    ensures forall i :: |r| <= i < |s| ==> s[i] in cut
    decreases |s|
  {
    if |s| > 0 && s[|s| - 1] in cut then TrimRightSet(s[..|s| - 1], cut) else s
  }

  /** strings.TrimSpace. */
  function TrimSpace(s: string): (r: string)
    ensures r == [] || (!IsSpace(r[0]) && !IsSpace(r[|r| - 1]))
  {
    TrimRightSpace(TrimLeftSpace(s))
  }

  /** strings.Trim(s, cutset) with the cutset given as a set of characters. */
  function Trim(s: string, cutset: set<char>): (r: string)
    ensures r == [] || (r[0] !in cutset && r[|r| - 1] !in cutset)
  {
    TrimRightSet(TrimLeftSet(s, cutset), cutset)
  }

  /** TrimSpace is idempotent. */
  lemma TrimSpaceIdempotent(s: string)
    ensures TrimSpace(TrimSpace(s)) == TrimSpace(s)
  {
    var t := TrimSpace(s);
    assert TrimLeftSpace(t) == t;
    assert TrimRightSpace(t) == t;
  }

  /** A non-empty run of non-space characters. */
  predicate IsWord(w: string) {
    |w| > 0 && forall i :: 0 <= i < |w| ==> !IsSpace(w[i])
  }

  /** strings.Fields: the maximal runs of non-space characters. */
  function Fields(s: string): (r: seq<string>)
    ensures forall k :: 0 <= k < |r| ==> IsWord(r[k])
    decreases |s|
  {
    if s == [] then []
    else if IsSpace(s[0]) then Fields(s[1..])
    else
      LeadingWord(s);
      var n := WordLength(s);
      [s[..n]] + Fields(s[n..])
  }

  /** A string that starts with a non-space character starts with a word. */
  lemma LeadingWord(t: string)
    requires t != [] && !IsSpace(t[0])
    ensures 0 < WordLength(t) <= |t| && IsWord(t[..WordLength(t)])
  {
    var n := WordLength(t);
    assert forall i :: 0 <= i < n ==> t[..n][i] == t[i];
  }

  /** The leading word of a word followed by a space or by nothing is that word. */
  lemma {:induction false} WordLengthOfWord(w: string, rest: string)
    requires IsWord(w) && (rest == [] || IsSpace(rest[0]))
    ensures WordLength(w + rest) == |w|
    decreases |w|
  {
    if |w| > 1 {
      assert (w + rest)[1..] == w[1..] + rest;
      WordLengthOfWord(w[1..], rest);
    } else {
      assert (w + rest)[1..] == rest;
    }
  }

  /** A word is its own only field. */
  lemma FieldsOfWord(w: string)
    requires IsWord(w)
    ensures Fields(w) == [w]
  {
    WordLengthOfWord(w, []);
    assert w + [] == w;
    assert w[|w|..] == [];
  }

  /** Two words separated by a space are its two fields, and trimming leaves
      them alone. */
  lemma FieldsOfTwoWords(a: string, b: string)
    requires IsWord(a) && IsWord(b)
    ensures TrimSpace(a + " " + b) == a + " " + b
    ensures Fields(a + " " + b) == [a, b]
  {
    var s := a + " " + b;
    assert s == a + (" " + b);
    WordLengthOfWord(a, " " + b);
    assert s[..|a|] == a;
    assert s[|a|..] == " " + b;
    assert (" " + b)[1..] == b;
    FieldsOfWord(b);
    assert s[|s| - 1] == b[|b| - 1];
  }

  /** The length of the leading run of non-space characters. */
  function WordLength(t: string): (n: nat)
    ensures n <= |t|
    ensures forall i :: 0 <= i < n ==> !IsSpace(t[i])
    ensures n < |t| ==> IsSpace(t[n])
    ensures |t| > 0 && !IsSpace(t[0]) ==> n > 0
    decreases |t|
  {
    if |t| == 0 || IsSpace(t[0]) then 0 else 1 + WordLength(t[1..])
  }

  // ---------------------------------------------------------------- case

  /** unicode.ToLower for every character whose lower case is ASCII: the letters
      A-Z, the dotted capital I (U+0130) and the Kelvin sign (U+212A). Any other
      character is kept. */
  function ToLowerChar(c: char): char {
    if 'A' <= c <= 'Z' then (c as int + 32) as char
    else if c == '\U{0130}' then 'i'
    else if c == '\U{212A}' then 'k'
    else c
  }

  /** unicode.ToUpper for every character whose upper case is ASCII: the letters
      a-z, the dotless small i (U+0131) and the long s (U+017F). Any other
      character is kept. */
  function ToUpperChar(c: char): char {
    if 'a' <= c <= 'z' then (c as int - 32) as char
    else if c == '\U{0131}' then 'I'
    else if c == '\U{017F}' then 'S'
    else c
  }

  /** strings.ToLower, for the characters whose lower case is ASCII. */
  function ToLower(s: string): (r: string)
    ensures |r| == |s| && forall i :: 0 <= i < |s| ==> r[i] == ToLowerChar(s[i])
  {
    seq(|s|, i requires 0 <= i < |s| => ToLowerChar(s[i]))
  }

  /** strings.ToUpper, for the characters whose upper case is ASCII. */
  function ToUpper(s: string): (r: string)
    ensures |r| == |s| && forall i :: 0 <= i < |s| ==> r[i] == ToUpperChar(s[i])
  {
    seq(|s|, i requires 0 <= i < |s| => ToUpperChar(s[i]))
  }

  /** The representative of a character's Unicode simple-folding orbit, for the
      orbits that hold an ASCII letter: {A, a}, ..., {K, k, Kelvin sign},
      ..., {S, s, long s}, ..., {Z, z}. Any other character is its own. */
  function FoldChar(c: char): char {
    if 'A' <= c <= 'Z' then (c as int + 32) as char
    else if c == '\U{212A}' then 'k'
    else if c == '\U{017F}' then 's'
    else c
  }

  /** strings.EqualFold, for the folding orbits that hold an ASCII letter. */
  predicate EqualFold(a: string, b: string) {
    |a| == |b| && forall i | 0 <= i < |a| :: FoldChar(a[i]) == FoldChar(b[i])
  }

  /** The Kelvin sign folds to k, but the dotted capital I does not fold to i, even
      though it lowers to it. */
  lemma EqualFoldOrbits()
    ensures EqualFold("\U{212A}", "k") && EqualFold("\U{017F}", "S")
    ensures !EqualFold("\U{0130}", "i") && ToLower("\U{0130}") == "i"
  {
    assert FoldChar('\U{0130}') == '\U{0130}';
    assert ToLower("\U{0130}")[0] == 'i';
    assert EqualFold("\U{212A}", "k") by { assert FoldChar("\U{212A}"[0]) == FoldChar("k"[0]); }
    assert EqualFold("\U{017F}", "S") by { assert FoldChar("\U{017F}"[0]) == FoldChar("S"[0]); }
  }

  // ------------------------------------------------------------- numbers

  function Pow2(k: nat): (r: int)
    ensures r >= 1
  {
    if k == 0 then 1 else 2 * Pow2(k - 1)
  }

  predicate IsDigit(c: char) { '0' <= c <= '9' }

  predicate AllDigits(s: string) {
    forall i :: 0 <= i < |s| ==> IsDigit(s[i])
  }

  function DigitChar(d: nat): (c: char)
    requires d < 10
    ensures IsDigit(c) && (c as int - '0' as int) == d
  {
    (d + '0' as int) as char
  }

  /** The value of a string of decimal digits. */
  function DigitsValue(s: string): nat
    requires AllDigits(s)
    decreases |s|
  {
    if s == [] then 0 else DigitsValue(s[..|s| - 1]) * 10 + (s[|s| - 1] as int - '0' as int)
  }

  /** The shortest decimal representation of n (strconv.FormatUint(n, 10)). */
  function NatToString(n: nat): (r: string)
    ensures |r| > 0 && AllDigits(r)
    ensures |r| > 1 ==> r[0] != '0'
    decreases n
  {
    if n < 10 then [DigitChar(n)] else NatToString(n / 10) + [DigitChar(n % 10)]
  }

  /** strconv.Itoa. */
  function Itoa(n: int): string {
    if n < 0 then "-" + NatToString(-n) else NatToString(n)
  }

  /** Reading back a decimal rendering gives the number again. */
  lemma {:induction false} DigitsValueOfNatToString(n: nat)
    ensures DigitsValue(NatToString(n)) == n
    decreases n
  {
    if n >= 10 {
      DigitsValueOfNatToString(n / 10);
      var s := NatToString(n);
      assert s[..|s| - 1] == NatToString(n / 10);
    }
  }

  /** strconv.ParseUint(s, 10, bits): digits only, at least one, and below 2^bits. */
  function ParseUint(s: string, bits: nat): (r: Option<nat>)
    ensures r.Some? <==> |s| > 0 && AllDigits(s) && DigitsValue(s) < Pow2(bits)
    ensures r.Some? ==> r.value == DigitsValue(s) && r.value < Pow2(bits)
  {
    if |s| > 0 && AllDigits(s) && DigitsValue(s) < Pow2(bits) then Some(DigitsValue(s)) else None
  }

  /** ParseUint undoes FormatUint for every value that fits. */
  lemma ParseUintOfNatToString(n: nat, bits: nat)
    requires n < Pow2(bits)
    ensures ParseUint(NatToString(n), bits) == Some(n)
  {
    DigitsValueOfNatToString(n);
  }

  /** strconv.Atoi on a 64-bit platform: an optional sign and at least one digit, in int64 range. */
  /** 2^63: Go's int is 64 bits wide, so Atoi accepts -2^63 .. 2^63 - 1. */
  const Int64Bound: int := Pow2(63)

  function Atoi(s: string): (r: Option<int>)
    ensures r.Some? ==> -Int64Bound <= r.value < Int64Bound
  {
    var neg := |s| > 0 && s[0] == '-';
    var digits := if |s| > 0 && (s[0] == '-' || s[0] == '+') then s[1..] else s;
    if |digits| == 0 || !AllDigits(digits) then None
    else
      var v := if neg then -(DigitsValue(digits) as int) else DigitsValue(digits);
      if -Int64Bound <= v < Int64Bound then Some(v) else None
  }

  /** Atoi undoes Itoa for every int64. */
  lemma AtoiOfItoa(n: int)
    requires -Int64Bound <= n < Int64Bound
    ensures Atoi(Itoa(n)) == Some(n)
  {
    if n < 0 {
      AtoiOfItoaNegative(n);
    } else {
      DigitsValueOfNatToString(n);
    }
  }

  lemma AtoiOfItoaNegative(n: int)
    requires -Int64Bound <= n < 0
    ensures Atoi(Itoa(n)) == Some(n)
  {
    var s := Itoa(n);
    assert s[0] == '-' && s[1..] == NatToString(-n);
    assert DigitsValue(s[1..]) == -n by {
      DigitsValueOfNatToString(-n);
    }
  }

  predicate IsHexDigit(c: char) { '0' <= c <= '9' || 'a' <= c <= 'f' }

  predicate AllHexDigits(s: string) {
    forall i :: 0 <= i < |s| ==> IsHexDigit(s[i])
  }

  function HexDigitValue(c: char): (d: nat)
    requires IsHexDigit(c)
    ensures d < 16
  {
    if c <= '9' then c as int - '0' as int else c as int - 'a' as int + 10
  }

  /** The lower-case hexadecimal digit of a value below 16. */
  function HexDigit(d: nat): (c: char)
    requires d < 16
    ensures IsHexDigit(c) && HexDigitValue(c) == d
  {
    if d < 10 then (d + '0' as int) as char else (d - 10 + 'a' as int) as char
  }

  /** The value of a string of lower-case hexadecimal digits. */
  function HexValue(s: string): nat
    requires AllHexDigits(s)
    decreases |s|
  {
    if s == [] then 0 else HexValue(s[..|s| - 1]) * 16 + HexDigitValue(s[|s| - 1])
  }

  /** strconv.FormatUint(n, 16): lower-case hexadecimal. */
  function NatToHex(n: nat): (r: string)
    ensures |r| > 0 && AllHexDigits(r)
    ensures |r| > 1 ==> r[0] != '0'
    decreases n
  {
    if n < 16 then [HexDigit(n)] else NatToHex(n / 16) + [HexDigit(n % 16)]
  }

  /** Reading back a hexadecimal rendering gives the number again. */
  lemma {:induction false} HexValueOfNatToHex(n: nat)
    ensures HexValue(NatToHex(n)) == n
    decreases n
  {
    if n >= 16 {
      HexValueOfNatToHex(n / 16);
      var s := NatToHex(n);
      assert s[..|s| - 1] == NatToHex(n / 16);
    }
  }

  /** strconv.FormatInt(i, 16): a minus sign before the magnitude of a negative value. */
  function FormatInt16(i: int): (r: string)
    ensures |r| > 0
    ensures (i < 0) <==> r[0] == '-'
  {
    if i < 0 then "-" + NatToHex(-i) else NatToHex(i)
  }

  /** Distinct values have distinct hexadecimal renderings. */
  lemma NatToHexInjective(x: nat, y: nat)
    requires NatToHex(x) == NatToHex(y)
    ensures x == y
  {
    HexValueOfNatToHex(x);
    HexValueOfNatToHex(y);
  }

  lemma FormatInt16Injective(a: int, b: int)
    requires FormatInt16(a) == FormatInt16(b)
    ensures a == b
  {
    var s := FormatInt16(a);
    if a < 0 {
      assert b < 0;
      assert s == "-" + NatToHex(-a) && s == "-" + NatToHex(-b);
      assert s[1..] == NatToHex(-a) && s[1..] == NatToHex(-b);
      NatToHexInjective(-a, -b);
    } else {
      assert b >= 0;
      NatToHexInjective(a, b);
    }
  }

  // ------------------------------------------------------------- UTF-8

  /** The UTF-8 encoding of one Unicode scalar value. */
  function Utf8Char(c: char): (r: seq<byte>)
    ensures 1 <= |r| <= 4
    ensures |r| == 1 <==> c as int < 0x80
    ensures |r| == 1 ==> r[0] as int == c as int
  {
    var n := c as int;
    if n < 0x80 then [n as byte]
    else if n < 0x800 then [(0xC0 + n / 64) as byte, (0x80 + n % 64) as byte]
    else if n < 0x10000 then [(0xE0 + n / 4096) as byte, (0x80 + (n / 64) % 64) as byte, (0x80 + n % 64) as byte]
    else [(0xF0 + n / 0x40000) as byte, (0x80 + (n / 4096) % 64) as byte, (0x80 + (n / 64) % 64) as byte,
          (0x80 + n % 64) as byte]
  }

  /** `[]byte(s)`: the UTF-8 encoding of a string. */
  function Utf8(s: string): (r: seq<byte>)
    ensures |r| >= |s|
    decreases |s|
  {
    if s == [] then [] else Utf8(s[..|s| - 1]) + Utf8Char(s[|s| - 1])
  }

  predicate IsAscii(s: string) {
    forall i :: 0 <= i < |s| ==> s[i] as int < 0x80
  }

  /** An ASCII string encodes to one byte per character, each its code. */
  lemma {:induction false} Utf8Ascii(s: string)
    requires IsAscii(s)
    ensures |Utf8(s)| == |s| && forall i :: 0 <= i < |s| ==> Utf8(s)[i] as int == s[i] as int
    decreases |s|
  {
    if s != [] {
      var init := s[..|s| - 1];
      assert IsAscii(init) by {
        forall i | 0 <= i < |init| ensures init[i] as int < 0x80 {
          assert init[i] == s[i];
        }
      }
      Utf8Ascii(init);
    }
  }
}
