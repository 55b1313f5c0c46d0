// The Caddyfile dispenser the plugins' UnmarshalCaddyfile methods read tokens from,
// as a flat list of tokens with their line numbers.
module Caddyfile {

  /** A Caddyfile token and the line it is on. */
  datatype Token = Token(text: string, line: int)

  /** The token after position i is on the same line as the token at i: the test
      NextArg makes before it advances. */
  predicate NextOnSameLine(toks: seq<Token>, i: int) {
    0 <= i && i + 1 < |toks| && toks[i + 1].line == toks[i].line
  }

  /** The position just after the arguments of the token at i: RemainingArgs
      takes following tokens while each is on the line of the one before. */
  function ArgsEnd(toks: seq<Token>, i: nat): (e: nat)
    requires i < |toks|
    ensures i < e <= |toks|
    ensures !NextOnSameLine(toks, e - 1)
    decreases |toks| - i
  {
    if NextOnSameLine(toks, i) then ArgsEnd(toks, i + 1) else i + 1
  }

  /** RemainingArgs with the dispenser at token i: the texts of the tokens that
      follow it on its line, each on the line of the one before. */
  function RemainingArgs(toks: seq<Token>, i: nat): (args: seq<string>)
    requires i < |toks|
    ensures |args| == ArgsEnd(toks, i) - i - 1
    decreases |toks| - i
  {
    if NextOnSameLine(toks, i) then [toks[i + 1].text] + RemainingArgs(toks, i + 1) else []
  }
}
