// The quantity limiter handler (caddy-quantity-limiter, ql.go): a set request
// gives a token a quota of successful requests, and each get request with that
// token spends one of them.
module QuantityLimiter {
  import opened Wrappers
  import opened GoStrings
  import opened Caddyfile

  const DefaultPrefix: string := "ql_"

  /** 2^32: the Caddyfile's quantity is parsed as a 32-bit unsigned number. */
  const Uint32Bound: int := 0x1_0000_0000

  /** A request's query (url.Values): every value given for a parameter, in order. */
  type Query = map<string, seq<string>>

  /** Values.Get: the first value of a parameter, or "". */
  function QueryGet(q: Query, key: string): string {
    if key in q && |q[key]| > 0 then q[key][0] else ""
  }

  /** What the handler does with a request. */
  datatype Reply =
    | Accepted                                    // 202, next is not called
    | NotFound                                    // 404, next is not called
    | PassOn(header: map<string, seq<string>>)    // next is called with this request header

  /** The handler's settings after Provision. */
  datatype Settings = Settings(paramSet: string, paramGet: string, quantity: nat)

  // ---------------------------------------------------------------------------
  // ServeHTTP

  /** ServeHTTP as corrected: an exhausted token's entry is removed. canonical is
      textproto's canonical header key, which Header.Del applies. */
  function Serve(counter: map<string, nat>, s: Settings, q: Query, header: map<string, seq<string>>,
                 canonical: string -> string): (map<string, nat>, Reply)
  {
    if s.paramSet in q then (counter[QueryGet(q, s.paramSet) := s.quantity], Accepted)
    else if s.paramGet in q then
      var token := QueryGet(q, s.paramGet);
      if token !in counter || counter[token] == 0 then (counter - {token}, NotFound)
      else (counter[token := counter[token] - 1], PassOn(header - {canonical(s.paramGet)}))
    else (counter, PassOn(header))
  }

  /** ServeHTTP as written: an exhausted token is answered 404, but the entry
      removed is the one named like the get parameter, not the token's. */
  function ServeAsWritten(counter: map<string, nat>, s: Settings, q: Query, header: map<string, seq<string>>,
                          canonical: string -> string): (map<string, nat>, Reply)
  {
    if s.paramSet in q then (counter[QueryGet(q, s.paramSet) := s.quantity], Accepted)
    else if s.paramGet in q then
      var token := QueryGet(q, s.paramGet);
      if token !in counter || counter[token] == 0 then (counter - {s.paramGet}, NotFound)
      else (counter[token := counter[token] - 1], PassOn(header - {canonical(s.paramGet)}))
    else (counter, PassOn(header))
  }

  /** A request only ever changes the entry of the token it names: set stores the
      quantity and answers 202; get answers 404 on a missing or spent token and
      otherwise spends exactly one request and passes on; requests with neither
      parameter change nothing and pass on. set is looked at before get. */
  lemma ServeSpec(counter: map<string, nat>, s: Settings, q: Query, header: map<string, seq<string>>,
                  canonical: string -> string)
    ensures var (c, reply) := Serve(counter, s, q, header, canonical);
            forall t | t in counter || t in c ::
              t != (if s.paramSet in q then QueryGet(q, s.paramSet) else QueryGet(q, s.paramGet))
              ==> (t in c <==> t in counter) && (t in c ==> c[t] == counter[t])
    ensures var (c, reply) := Serve(counter, s, q, header, canonical);
            s.paramSet in q ==>
              reply == Accepted && c[QueryGet(q, s.paramSet)] == s.quantity
    ensures var (c, reply) := Serve(counter, s, q, header, canonical);
            var token := QueryGet(q, s.paramGet);
            (s.paramSet !in q && s.paramGet in q) ==>
              (reply == NotFound <==> (token !in counter || counter[token] == 0))
              && (reply == NotFound ==> token !in c)
              && (reply != NotFound ==>
                    token in c && c[token] == counter[token] - 1
                    && reply == PassOn(header - {canonical(s.paramGet)}))
    ensures var (c, reply) := Serve(counter, s, q, header, canonical);
            (s.paramSet !in q && s.paramGet !in q) ==> c == counter && reply == PassOn(header)
  {
  }

  /** The finding: a token spelled like the get parameter loses its quota when
      another, unknown, token is asked for. */
  lemma AsWrittenLosesQuota(canonical: string -> string)
    ensures var s := Settings("ql_set", "ql_get", 1);
            var counter := map["ql_get" := 1];
            var q := map["ql_get" := ["other"]];
            ServeAsWritten(counter, s, q, map[], canonical).0 == map[]
            && Serve(counter, s, q, map[], canonical).0 == counter
  {
    var counter := map["ql_get" := 1];
    assert "other" !in counter;
    assert counter - {"ql_get"} == map[];
    assert counter - {"other"} == counter;
  }

  /** The two agree on every reply; they differ only in which entry a refused get
      removes. */
  lemma AsWrittenSameReplies(counter: map<string, nat>, s: Settings, q: Query,
                             header: map<string, seq<string>>, canonical: string -> string)
    ensures ServeAsWritten(counter, s, q, header, canonical).1 == Serve(counter, s, q, header, canonical).1
  {
  }

  /** The gets a token's quota allows, one after another: the replies in turn. */
  function Gets(counter: map<string, nat>, s: Settings, q: Query, header: map<string, seq<string>>,
                canonical: string -> string, n: nat): seq<Reply>
    decreases n
  {
    if n == 0 then []
    else
      var (c, reply) := Serve(counter, s, q, header, canonical);
      [reply] + Gets(c, s, q, header, canonical, n - 1)
  }

  /** A token with quota k is served exactly k get requests; the next one is refused. */
  lemma {:induction false} QuotaIsSpent(counter: map<string, nat>, s: Settings, q: Query,
                                        header: map<string, seq<string>>, canonical: string -> string, k: nat)
    requires s.paramSet !in q && s.paramGet in q
    requires QueryGet(q, s.paramGet) in counter && counter[QueryGet(q, s.paramGet)] == k
    ensures var rs := Gets(counter, s, q, header, canonical, k + 1);
            |rs| == k + 1 && rs[k] == NotFound
            && forall i | 0 <= i < k :: rs[i] == PassOn(header - {canonical(s.paramGet)})
    decreases k
  {
    var token := QueryGet(q, s.paramGet);
    if k > 0 {
      var c := counter[token := k - 1];
      assert Serve(counter, s, q, header, canonical) == (c, PassOn(header - {canonical(s.paramGet)}));
      QuotaIsSpent(c, s, q, header, canonical, k - 1);
    }
  }

  // ---------------------------------------------------------------------------
  // Provision and the Caddyfile

  /** Provision's settings from the configured prefix and quantity. */
  function Provisioned(prefix: string, quantity: nat): (s: Settings)
    ensures var p := if prefix == "" then DefaultPrefix else prefix;
            s.paramSet == p + "set" && s.paramGet == p + "get"
    ensures s.quantity > 0 && (quantity > 0 ==> s.quantity == quantity)
  {
    var p := if prefix == "" then DefaultPrefix else prefix;
    Settings(p + "set", p + "get", if quantity == 0 then 1 else quantity)
  }

  /** The set and get parameters are always two different names. */
  lemma ParamsDiffer(prefix: string, quantity: nat)
    ensures Provisioned(prefix, quantity).paramSet != Provisioned(prefix, quantity).paramGet
  {
    var s := Provisioned(prefix, quantity);
    var p := if prefix == "" then DefaultPrefix else prefix;
    assert s.paramSet[|p|] == 's' && s.paramGet[|p|] == 'g';
  }

  datatype ConfigError =
    | ArgErr(after: string)
    | BadQuantity(text: string)
    | UnknownSubdirective(name: string)

  /** strconv.ParseUint(s, 10, 32)'s value: the number, 0 on a syntax error, and
      2^32 - 1 when it does not fit. */
  function ParseUint32Value(s: string): (r: nat)
    ensures r < Uint32Bound
    ensures ParseUint(s, 32).Some? ==> r == ParseUint(s, 32).value
  {
    Pow2Value32();
    if |s| == 0 || !AllDigits(s) then 0
    else if DigitsValue(s) < Uint32Bound then DigitsValue(s)
    else Uint32Bound - 1
  }

  /** The block's subdirectives read from toks[i..] onto prefix and quantity; each
      takes the next token on its own line. */
  function ReadBlock(prefix: string, quantity: nat, toks: seq<Token>, i: nat): (string, nat, Option<ConfigError>)
    requires i <= |toks|
    decreases |toks| - i
  {
    if i == |toks| then (prefix, quantity, None)
    else
      var name := toks[i].text;
      var hasArg := NextOnSameLine(toks, i);
      if name == "parameterNamePrefix" then
        if !hasArg then (prefix, quantity, Some(ArgErr(name)))
        else ReadBlock(toks[i + 1].text, quantity, toks, i + 2)
      else if name == "quantity" then
        if !hasArg then (prefix, quantity, Some(ArgErr(name)))
        else
          var text := toks[i + 1].text;
          if ParseUint(text, 32).None? then (prefix, ParseUint32Value(text), Some(BadQuantity(text)))
          else ReadBlock(prefix, ParseUint(text, 32).value, toks, i + 2)
      else (prefix, quantity, Some(UnknownSubdirective(name)))
  }

  /** A well-formed block sets the prefix and the quantity it names. */
  lemma ReadWellFormed(p: string, n: nat)
    requires n < Uint32Bound
    ensures var toks := [Token("parameterNamePrefix", 1), Token(p, 1),
                         Token("quantity", 2), Token(NatToString(n), 2)];
            ReadBlock("", 0, toks, 0) == (p, n, None)
  {
    Pow2Value32();
    ParseUintOfNatToString(n, 32);
    var toks := [Token("parameterNamePrefix", 1), Token(p, 1),
                 Token("quantity", 2), Token(NatToString(n), 2)];
    assert ReadBlock(p, n, toks, 4) == (p, n, None);
    assert ReadBlock(p, 0, toks, 2) == (p, n, None);
  }

  lemma Pow2Value32()
    ensures Pow2(32) == 0x1_0000_0000
  {
    assert Pow2(8) == 256;
    assert Pow2(16) == 65536;
    assert Pow2(24) == 0x100_0000;
  }

  /** An unknown subdirective is an error; nothing before it is undone. */
  lemma UnknownIsError(prefix: string, quantity: nat, name: string, line: int)
    requires name != "parameterNamePrefix" && name != "quantity"
    ensures ReadBlock(prefix, quantity, [Token(name, line)], 0) == (prefix, quantity, Some(UnknownSubdirective(name)))
  {
  }

  /** A quantity that is not a 32-bit unsigned number is an error. */
  lemma QuantityMustFit(prefix: string, quantity: nat, text: string)
    requires DigitsAbove(text)
    ensures ReadBlock(prefix, quantity, [Token("quantity", 0), Token(text, 0)], 0).2 == Some(BadQuantity(text))
  {
    Pow2Value32();
  }

  /** Digits whose value does not fit in 32 bits. */
  predicate DigitsAbove(text: string) {
    |text| > 0 && AllDigits(text) && DigitsValue(text) >= Uint32Bound
  }

  class QuantityLimiter {
    /** The tokens and the requests each has left (a uint64 map). */
    var counter: map<string, nat>
    var paramSet: string
    var paramGet: string
    var prefix: string
    var quantity: nat

    constructor ()
      ensures counter == map[] && paramSet == "" && paramGet == "" && prefix == "" && quantity == 0
    {
      counter, paramSet, paramGet, prefix, quantity := map[], "", "", "", 0;
    }

    function SettingsOf(): Settings
      reads this
    {
      Settings(paramSet, paramGet, quantity)
    }

    /** Provision: the prefix and quantity defaults, the two parameter names and a
        new, empty counter. */
    method Provision()
      modifies this
      ensures counter == map[]
      ensures prefix == (if old(prefix) == "" then DefaultPrefix else old(prefix))
      ensures quantity == (if old(quantity) == 0 then 1 else old(quantity))
      ensures SettingsOf() == Provisioned(old(prefix), old(quantity))
    {
      counter := map[];
      if prefix == "" {
        prefix := DefaultPrefix;
      }
      paramSet := prefix + "set";
      paramGet := prefix + "get";
      if quantity == 0 {
        quantity := 1;
      }
    }

    /** ServeHTTP, with the corrected removal of an exhausted token. */
    method ServeHTTP(q: Query, header: map<string, seq<string>>, canonical: string -> string)
      returns (reply: Reply)
      modifies this`counter
      ensures (counter, reply) == Serve(old(counter), SettingsOf(), q, header, canonical)
    {
      if paramSet in q {
        counter := counter[QueryGet(q, paramSet) := quantity];
        return Accepted;
      }
      if paramGet in q {
        var token := QueryGet(q, paramGet);
        if token !in counter || counter[token] == 0 {
          counter := counter - {token};
          return NotFound;
        }
        counter := counter[token := counter[token] - 1];
        return PassOn(header - {canonical(paramGet)});
      }
      return PassOn(header);
    }

    /** UnmarshalCaddyfile over the tokens of the handler's block. */
    method UnmarshalCaddyfile(toks: seq<Token>) returns (err: Option<ConfigError>)
      modifies this`prefix, this`quantity
      ensures (prefix, quantity, err) == ReadBlock(old(prefix), old(quantity), toks, 0)
    {
      var i := 0;
      while i < |toks|
        invariant 0 <= i <= |toks|
        invariant ReadBlock(old(prefix), old(quantity), toks, 0) == ReadBlock(prefix, quantity, toks, i)
        decreases |toks| - i
      {
        var name := toks[i].text;
        var hasArg := NextOnSameLine(toks, i);
        if name == "parameterNamePrefix" {
          if !hasArg {
            return Some(ArgErr(name));
          }
          prefix := toks[i + 1].text;
          i := i + 2;
        } else if name == "quantity" {
          if !hasArg {
            return Some(ArgErr(name));
          }
          var text := toks[i + 1].text;
          quantity := ParseUint32Value(text);
          if ParseUint(text, 32).None? {
            return Some(BadQuantity(text));
          }
          i := i + 2;
        } else {
          return Some(UnknownSubdirective(name));
        }
      }
      return None;
    }
  }
}
