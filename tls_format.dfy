// Caddy log field filters that render TLS numbers as text (caddy-tls-format,
// format.go): the protocol version as "1.0" .. "1.3" after a configurable prefix,
// and the cipher suite by its name.
module TlsFormat {
  import opened Wrappers
  import opened GoStrings
  import opened Caddyfile

  /** zapcore.FieldType, by its numeric code. */
  type FieldType = nat

  /** zapcore.StringType. */
  const StringType: FieldType := 15

  /** A zapcore.Field: its key, type, integer and string payloads, and the
      interface payload, which the filters carry along unread. */
  datatype Field = Field(key: string, ftype: FieldType, integer: int, str: string, iface: string)

  /** crypto/tls's protocol version codes. */
  const VersionTLS10: int := 0x0301
  const VersionTLS11: int := 0x0302
  const VersionTLS12: int := 0x0303
  const VersionTLS13: int := 0x0304

  /** The text of a known version code. */
  function VersionText(code: int): string
    requires VersionTLS10 <= code <= VersionTLS13
  {
    if code == VersionTLS10 then "1.0"
    else if code == VersionTLS11 then "1.1"
    else if code == VersionTLS12 then "1.2"
    else "1.3"
  }

  /** TLSVersionFilter.Filter: the field becomes a string field; a TLS 1.0 to 1.3
      code becomes the prefix followed by the version, and any other code its
      lower-case hexadecimal form without the prefix. */
  function FilterVersion(prefix: string, f: Field): (r: Field)
    ensures r.ftype == StringType
    ensures r.key == f.key && r.integer == f.integer && r.iface == f.iface
    ensures VersionTLS10 <= f.integer <= VersionTLS13 ==> r.str == prefix + VersionText(f.integer)
    ensures !(VersionTLS10 <= f.integer <= VersionTLS13) ==> r.str == FormatInt16(f.integer)
  {
    var s := if f.integer == VersionTLS10 then prefix + "1.0"
             else if f.integer == VersionTLS11 then prefix + "1.1"
             else if f.integer == VersionTLS12 then prefix + "1.2"
             else if f.integer == VersionTLS13 then prefix + "1.3"
             else FormatInt16(f.integer);
    f.(ftype := StringType, str := s)
  }

  /** A hexadecimal rendering has no '.', so it is never mistaken for a version. */
  lemma FormatInt16HasNoDot(i: int)
    ensures '.' !in FormatInt16(i)
  {
    var s := FormatInt16(i);
    if i < 0 {
      assert s[1..] == NatToHex(-i);
      forall k | 0 <= k < |s|
        ensures s[k] != '.'
      {
        if k > 0 {
          assert s[k] == NatToHex(-i)[k - 1];
        }
      }
    }
  }

  /** For a fixed prefix the filtered text determines the version code: the
      filter loses no information. */
  lemma FilterVersionInjective(prefix: string, a: Field, b: Field)
    requires FilterVersion(prefix, a).str == FilterVersion(prefix, b).str
    ensures a.integer == b.integer
  {
    var s := FilterVersion(prefix, a).str;
    var ka := VersionTLS10 <= a.integer <= VersionTLS13;
    var kb := VersionTLS10 <= b.integer <= VersionTLS13;
    if ka && kb {
      assert s[|prefix|..] == VersionText(a.integer);
      assert s[|prefix|..] == VersionText(b.integer);
    } else if ka {
      assert s[|prefix| + 1] == '.';
      FormatInt16HasNoDot(b.integer);
    } else if kb {
      assert s[|prefix| + 1] == '.';
      FormatInt16HasNoDot(a.integer);
    } else {
      FormatInt16Injective(a.integer, b.integer);
    }
  }

  /** TLSCipherFilter.Filter: the field becomes a string field holding the name
      crypto/tls gives the code truncated to 16 bits. */
  function FilterCipher(f: Field, cipherSuiteName: nat -> string): (r: Field)
    ensures r.ftype == StringType && r.str == cipherSuiteName(f.integer % 0x1_0000)
    ensures r.key == f.key && r.integer == f.integer && r.iface == f.iface
  {
    f.(ftype := StringType, str := cipherSuiteName(f.integer % 0x1_0000))
  }

  /** The uint16 conversion: codes that differ by a multiple of 2^16 get the same name. */
  lemma FilterCipherTruncates(f: Field, k: int, cipherSuiteName: nat -> string)
    ensures FilterCipher(f.(integer := f.integer + k * 0x1_0000), cipherSuiteName).str
              == FilterCipher(f, cipherSuiteName).str
  {
    assert (f.integer + k * 0x1_0000) % 0x1_0000 == f.integer % 0x1_0000;
  }

  /** The prefix after the dispenser has been read from token i on: each Next
      moves to a token, and when the following token is on the same line NextArg
      takes it as the new prefix. */
  function PrefixAfter(prefix: string, toks: seq<Token>, i: nat): string
    decreases |toks| - i
  {
    if i >= |toks| then prefix
    else if NextOnSameLine(toks, i) then PrefixAfter(toks[i + 1].text, toks, i + 2)
    else PrefixAfter(prefix, toks, i + 1)
  }

  /** The prefix read is either the one before or one of the tokens' texts. */
  lemma {:induction false} PrefixAfterFromTokens(prefix: string, toks: seq<Token>, i: nat)
    ensures PrefixAfter(prefix, toks, i) == prefix
            || exists j | i < j < |toks| :: PrefixAfter(prefix, toks, i) == toks[j].text
    decreases |toks| - i
  {
    if i < |toks| {
      if NextOnSameLine(toks, i) {
        PrefixAfterFromTokens(toks[i + 1].text, toks, i + 2);
      } else {
        PrefixAfterFromTokens(prefix, toks, i + 1);
      }
    }
  }

  /** A line holding only the directive name leaves the prefix as it was. */
  lemma NoArgumentKeepsPrefix(prefix: string, name: string, line: int)
    ensures PrefixAfter(prefix, [Token(name, line)], 0) == prefix
  {
    assert PrefixAfter(prefix, [Token(name, line)], 1) == prefix;
  }

  /** A directive with one argument sets the prefix to it. */
  lemma ArgumentSetsPrefix(prefix: string, name: string, arg: string, line: int)
    ensures PrefixAfter(prefix, [Token(name, line), Token(arg, line)], 0) == arg
  {
    assert PrefixAfter(arg, [Token(name, line), Token(arg, line)], 2) == arg;
  }

  /** With every token on a line of its own the prefix is left unchanged. */
  lemma {:induction false} OwnLinesKeepPrefix(prefix: string, toks: seq<Token>, i: nat)
    requires forall j | 0 <= j < |toks| - 1 :: toks[j].line != toks[j + 1].line
    ensures PrefixAfter(prefix, toks, i) == prefix
    decreases |toks| - i
  {
    if i < |toks| {
      OwnLinesKeepPrefix(prefix, toks, i + 1);
    }
  }

  class TLSVersionFilter {
    var prefix: string

    constructor (prefix: string)
      ensures this.prefix == prefix
    {
      this.prefix := prefix;
    }

    /** UnmarshalCaddyfile: for each token Next reaches, a NextArg on the same
        line sets the prefix. It never fails. */
    method UnmarshalCaddyfile(toks: seq<Token>) returns (err: Option<string>)
      modifies this
      ensures err.None?
      ensures prefix == PrefixAfter(old(prefix), toks, 0)
    {
      var cursor := 0;
      while cursor < |toks|
        invariant 0 <= cursor <= |toks| + 1
        invariant PrefixAfter(old(prefix), toks, 0) == PrefixAfter(prefix, toks, cursor)
        decreases |toks| - cursor
      {
        if NextOnSameLine(toks, cursor) {
          prefix := toks[cursor + 1].text;
          cursor := cursor + 2;
        } else {
          cursor := cursor + 1;
        }
      }
      err := None;
    }
  }
}
