// The SCGI client of Caddy's scgi transport (scgi-transport/client.go): the
// netstring-framed request header it writes, the request parameters each method
// sets, and how the responder's status is read back.
module ScgiClient {
  import opened Wrappers
  import opened GoStrings

  const ContentLengthKey: string := "CONTENT_LENGTH"
  const RequestMethodKey: string := "REQUEST_METHOD"
  const ContentTypeKey: string := "CONTENT_TYPE"
  const FormUrlEncoded: string := "application/x-www-form-urlencoded"

  const Colon: byte := 58
  const Comma: byte := 44
  const Nul: byte := 0

  // ---------------------------------------------------------------------------
  // Netstrings

  /** A netstring: the decimal length, ':', the content, ','. */
  function Netstring(content: seq<byte>): seq<byte> {
    Utf8(Itoa(|content|)) + [Colon] + content + [Comma]
  }

  /** Bytes read as ASCII characters. */
  function AsciiString(bs: seq<byte>): (s: string)
    ensures |s| == |bs| && forall i | 0 <= i < |bs| :: s[i] as int == bs[i] as int
  {
    seq(|bs|, i requires 0 <= i < |bs| => bs[i] as int as char)
  }

  /** Reading a netstring off the front of bs: its content and what follows. */
  function ParseNetstring(bs: seq<byte>): Option<(seq<byte>, seq<byte>)> {
    var i := Index(bs, [Colon]);
    if i <= 0 then None
    else
      var digits := AsciiString(bs[..i]);
      if !AllDigits(digits) then None
      else ContentAndRest(bs[i + 1..], DigitsValue(digits))
  }

  /** What follows the colon: n bytes of content, then ',' and the rest. */
  function ContentAndRest(tail: seq<byte>, n: nat): Option<(seq<byte>, seq<byte>)> {
    if n < |tail| && tail[n] == Comma then Some((tail[..n], tail[n + 1..])) else None
  }

  /** The first x in a + [x] + tail is the one after a, when a has none. */
  lemma IndexAfterFree<T>(a: seq<T>, x: T, tail: seq<T>)
    requires x !in a
    ensures Index(a + [x] + tail, [x]) == |a|
  {
    var s := a + [x] + tail;
    assert OccursAt(s, [x], |a|) by {
      assert s[|a|..|a| + 1] == [x];
    }
    forall j | 0 <= j < |a| ensures !OccursAt(s, [x], j) {
      assert s[j..j + 1] == [a[j]];
    }
    IndexIs(s, [x], |a|);
  }

  /** The decimal rendering of a length, as bytes, holds digits only. */
  lemma DecimalBytes(n: nat)
    ensures var d := Utf8(Itoa(n));
            AsciiString(d) == NatToString(n)
            && forall j | 0 <= j < |d| :: 48 <= d[j] as int <= 57
  {
    var s := NatToString(n);
    assert IsAscii(s) by {
      forall k | 0 <= k < |s| ensures s[k] as int < 0x80 {
        assert IsDigit(s[k]);
      }
    }
    Utf8Ascii(s);
    var d := Utf8(s);
    forall j | 0 <= j < |d| ensures 48 <= d[j] as int <= 57 {
      assert IsDigit(s[j]);
    }
  }

  /** A netstring reads back as its content, whatever follows it. */
  lemma NetstringRoundTrip(content: seq<byte>, rest: seq<byte>)
    ensures ParseNetstring(Netstring(content) + rest) == Some((content, rest))
  {
    var d := Utf8(Itoa(|content|));
    var bs := d + [Colon] + (content + [Comma] + rest);
    assert Netstring(content) + rest == bs;
    LengthPrefix(|content|, content + [Comma] + rest);
    assert bs[..|d|] == d;
    assert bs[|d| + 1..] == content + [Comma] + rest;
    ParseAt(bs, |d|, content, rest);
  }

  /** Once the colon and the length are found, the content and the rest follow. */
  lemma ParseAt(bs: seq<byte>, i: int, content: seq<byte>, rest: seq<byte>)
    requires 0 < i < |bs| && Index(bs, [Colon]) == i
    requires AllDigits(AsciiString(bs[..i])) && DigitsValue(AsciiString(bs[..i])) == |content|
    requires bs[i + 1..] == content + [Comma] + rest
    ensures ParseNetstring(bs) == Some((content, rest))
  {
    var tail := bs[i + 1..];
    var n := |content|;
    assert tail[n] == Comma && tail[..n] == content && tail[n + 1..] == rest;
    assert ContentAndRest(tail, n) == Some((content, rest));
  }

  /** The length prefix of a netstring ends at its first colon and reads back as the length. */
  lemma LengthPrefix(n: nat, tail: seq<byte>)
    ensures var d := Utf8(Itoa(n));
            |d| > 0 && Index(d + [Colon] + tail, [Colon]) == |d|
            && AllDigits(AsciiString(d)) && DigitsValue(AsciiString(d)) == n
  {
    var d := Utf8(Itoa(n));
    DecimalBytes(n);
    assert |d| > 0 by {
      assert |NatToString(n)| > 0;
    }
    assert Colon !in d by {
      forall j | 0 <= j < |d| ensures d[j] != Colon {
      }
    }
    IndexAfterFree(d, Colon, tail);
    DigitsValueOfNatToString(n);
  }

  // ---------------------------------------------------------------------------
  // The header block

  /** Fields, each followed by a NUL byte. */
  function Block(fields: seq<string>): seq<byte> {
    if |fields| == 0 then [] else Block(fields[..|fields| - 1]) + Utf8(fields[|fields| - 1]) + [Nul]
  }

  /** The header fields in the order they are written: CONTENT_LENGTH and its value
      first when present, then every other key and its value in iteration order. */
  function HeaderFields(pairs: map<string, string>, order: seq<string>): seq<string>
    requires forall k | k in order :: k in pairs
  {
    (if ContentLengthKey in pairs then [ContentLengthKey, pairs[ContentLengthKey]] else [])
    + PairFields(pairs, order)
  }

  function PairFields(pairs: map<string, string>, order: seq<string>): seq<string>
    requires forall k | k in order :: k in pairs
  {
    if |order| == 0 then []
    else PairFields(pairs, order[..|order| - 1]) + [order[|order| - 1], pairs[order[|order| - 1]]]
  }

  /** order lists the keys of the map other than CONTENT_LENGTH, each once: one of
      Go's iteration orders. */
  predicate IsIterationOrder(order: seq<string>, keys: set<string>) {
    (forall i, j | 0 <= i < j < |order| :: order[i] != order[j])
    && (forall k | k in order :: k in keys && k != ContentLengthKey)
    && (forall k | k in keys && k != ContentLengthKey :: k in order)
  }

  /** Reading NUL-terminated fields off the front of bs. */
  function SplitTerminated(bs: seq<byte>): Option<seq<seq<byte>>>
    decreases |bs|
  {
    if |bs| == 0 then Some([])
    else
      var i := Index(bs, [Nul]);
      if i < 0 then None
      else match SplitTerminated(bs[i + 1..])
        case None => None
        case Some(rest) => Some([bs[..i]] + rest)
  }

  /** The UTF-8 form of a string without NUL characters has no NUL byte. */
  lemma {:induction false} Utf8NoNul(s: string)
    requires '\0' !in s
    ensures Nul !in Utf8(s)
    decreases |s|
  {
    if |s| > 0 {
      var init := s[..|s| - 1];
      assert '\0' !in init by {
        forall k | 0 <= k < |init| ensures init[k] != '\0' {
          assert init[k] == s[k];
        }
      }
      Utf8NoNul(init);
    }
  }

  /** A key and its value, each followed by NUL. */
  function Pair(k: string, v: string): seq<byte> {
    Utf8(k) + [Nul] + Utf8(v) + [Nul]
  }

  /** Appending a key and a value appends their NUL-terminated bytes. */
  lemma BlockSnoc2(fs: seq<string>, k: string, v: string)
    ensures Block(fs + [k, v]) == Block(fs) + Pair(k, v)
  {
    var g := fs + [k, v];
    assert g[..|g| - 1] == fs + [k];
    assert (fs + [k])[..|fs|] == fs;
  }

  /** The block of fields f :: fs is f, NUL, then the block of fs. */
  lemma {:induction false} BlockCons(fields: seq<string>)
    requires |fields| > 0
    ensures Block(fields) == Utf8(fields[0]) + [Nul] + Block(fields[1..])
    decreases |fields|
  {
    if |fields| > 1 {
      var init := fields[..|fields| - 1];
      var tail := fields[1..];
      var last := Utf8(fields[|fields| - 1]) + [Nul];
      var first := Utf8(fields[0]) + [Nul];
      BlockCons(init);
      assert init[1..] == tail[..|tail| - 1];
      assert init[0] == fields[0];
      assert Block(init) == first + Block(init[1..]);
      assert Block(fields) == Block(init) + last;
      assert Block(tail) == Block(init[1..]) + last;
      assert Block(fields) == first + (Block(init[1..]) + last);
    }
  }

  /** The UTF-8 forms of the fields, in order. */
  function Utf8All(fields: seq<string>): (r: seq<seq<byte>>)
    ensures |r| == |fields| && forall i | 0 <= i < |fields| :: r[i] == Utf8(fields[i])
  {
    if |fields| == 0 then [] else [Utf8(fields[0])] + Utf8All(fields[1..])
  }

  /** Fields without NUL characters are read back from their block. */
  lemma {:induction false} SplitBlock(fields: seq<string>)
    requires forall i | 0 <= i < |fields| :: '\0' !in fields[i]
    ensures SplitTerminated(Block(fields)) == Some(Utf8All(fields))
    decreases |fields|
  {
    if |fields| > 0 {
      var f := Utf8(fields[0]);
      var tail := fields[1..];
      BlockCons(fields);
      Utf8NoNul(fields[0]);
      var bs := Block(fields);
      assert bs == f + [Nul] + Block(tail);
      IndexAfterFree(f, Nul, Block(tail));
      assert bs[..|f|] == f;
      assert bs[|f| + 1..] == Block(tail);
      assert forall i | 0 <= i < |tail| :: '\0' !in tail[i] by {
        forall i | 0 <= i < |tail| ensures '\0' !in tail[i] {
          assert tail[i] == fields[i + 1];
        }
      }
      SplitBlock(tail);
    }
  }

  /** A responder reading the header block back gets CONTENT_LENGTH first whenever
      it was set, then each pair, key before value. */
  lemma HeaderReadsBack(pairs: map<string, string>, order: seq<string>)
    requires IsIterationOrder(order, pairs.Keys)
    requires forall k | k in pairs :: '\0' !in k
    requires forall v | v in pairs.Values :: '\0' !in v
    ensures var fs := HeaderFields(pairs, order);
            SplitTerminated(Block(fs)) == Some(Utf8All(fs))
    ensures ContentLengthKey in pairs ==>
              HeaderFields(pairs, order)[..2] == [ContentLengthKey, pairs[ContentLengthKey]]
    ensures |HeaderFields(pairs, order)| == 2 * |pairs|
  {
    var fs := HeaderFields(pairs, order);
    PairFieldsShape(pairs, order);
    assert '\0' !in ContentLengthKey;
    forall i | 0 <= i < |fs| ensures '\0' !in fs[i] {
      assert fs[i] in fs;
    }
    SplitBlock(fs);
    OrderCoversKeys(order, pairs.Keys);
  }

  /** The pairs' fields alternate key and value, keys following the order. */
  lemma {:induction false} PairFieldsShape(pairs: map<string, string>, order: seq<string>)
    requires forall k | k in order :: k in pairs
    ensures |PairFields(pairs, order)| == 2 * |order|
    ensures forall x | x in PairFields(pairs, order) :: x in pairs.Keys || x in pairs.Values
    ensures forall i | 0 <= i < |order| ::
              PairFields(pairs, order)[2 * i] == order[i]
              && PairFields(pairs, order)[2 * i + 1] == pairs[order[i]]
    decreases |order|
  {
    if |order| > 0 {
      var init := order[..|order| - 1];
      PairFieldsShape(pairs, init);
      assert forall i | 0 <= i < |init| :: init[i] == order[i];
    }
  }

  lemma PairFieldsSnoc(pairs: map<string, string>, order: seq<string>, i: nat)
    requires forall k | k in order :: k in pairs
    requires i < |order|
    ensures PairFields(pairs, order[..i + 1]) == PairFields(pairs, order[..i]) + [order[i], pairs[order[i]]]
  {
    assert order[..i + 1][..i] == order[..i];
  }

  /** An iteration order has one entry per key other than CONTENT_LENGTH. */
  lemma OrderCoversKeys(order: seq<string>, keys: set<string>)
    requires IsIterationOrder(order, keys)
    ensures |order| == |keys| - (if ContentLengthKey in keys then 1 else 0)
  {
    var others := keys - {ContentLengthKey};
    assert others == set k | k in order;
    DistinctCardinality(order);
  }

  lemma {:induction false} DistinctCardinality(order: seq<string>)
    requires forall i, j | 0 <= i < j < |order| :: order[i] != order[j]
    ensures |set k | k in order| == |order|
    decreases |order|
  {
    if |order| > 0 {
      var init := order[..|order| - 1];
      var last := order[|order| - 1];
      DistinctCardinality(init);
      assert (set k | k in order) == (set k | k in init) + {last};
      assert last !in init;
    }
  }

  // ---------------------------------------------------------------------------
  // Parameter setup

  /** Get's parameters: the method GET and the given content length. */
  function GetParams(p: map<string, string>, l: int): (r: map<string, string>)
    ensures r.Keys == p.Keys + {RequestMethodKey, ContentLengthKey}
    ensures r[RequestMethodKey] == "GET" && r[ContentLengthKey] == Itoa(l)
    ensures forall k | k in p && k != RequestMethodKey && k != ContentLengthKey :: r[k] == p[k]
  {
    p[RequestMethodKey := "GET"][ContentLengthKey := Itoa(l)]
  }

  /** Head's and Options's parameters: the method and a zero content length. */
  function BodilessParams(p: map<string, string>, verb: string): (r: map<string, string>)
    ensures r.Keys == p.Keys + {RequestMethodKey, ContentLengthKey}
    ensures r[RequestMethodKey] == verb && r[ContentLengthKey] == "0"
    ensures forall k | k in p && k != RequestMethodKey && k != ContentLengthKey :: r[k] == p[k]
  {
    p[RequestMethodKey := verb][ContentLengthKey := "0"]
  }

  /** Post's request method: the given one in upper case, POST for none or GET. */
  function PostMethod(verb: string): (r: string)
    ensures r != "" && r != "GET"
    ensures ToUpper(verb) != "" && ToUpper(verb) != "GET" ==> r == ToUpper(verb)
  {
    var m := ToUpper(verb);
    if |m| == 0 || m == "GET" then "POST" else m
  }

  /** Post's parameters. */
  function PostParams(p: map<string, string>, verb: string, bodyType: string, l: int): (r: map<string, string>)
    ensures r.Keys == p.Keys + {RequestMethodKey, ContentLengthKey, ContentTypeKey}
    ensures r[RequestMethodKey] == PostMethod(verb) && r[ContentLengthKey] == Itoa(l)
    ensures r[ContentTypeKey] == (if |bodyType| > 0 then bodyType else FormUrlEncoded)
    ensures forall k | k in p && k != RequestMethodKey && k != ContentLengthKey && k != ContentTypeKey ::
              r[k] == p[k]
  {
    p[RequestMethodKey := PostMethod(verb)][ContentLengthKey := Itoa(l)]
     [ContentTypeKey := if |bodyType| > 0 then bodyType else FormUrlEncoded]
  }

  // ---------------------------------------------------------------------------
  // The response head

  /** Header.Get: the first value under a (canonical) key, or "". */
  function HeaderGet(h: map<string, seq<string>>, key: string): string {
    if key in h && |h[key]| > 0 then h[key][0] else ""
  }

  /** A status "code reason": the integer before the first space and the rest. */
  function ParseStatusText(s: string): (r: Result<(int, string), string>)
    ensures r.Ok? <==> Atoi(SplitN2(s, " ")[0]).Some?
    ensures r.Ok? ==> r.value.0 == Atoi(SplitN2(s, " ")[0]).value
    ensures r.Ok? ==> r.value.1 == (if Index(s, " ") < 0 then "" else s[Index(s, " ") + 1..])
  {
    var parts := SplitN2(s, " ");
    match Atoi(parts[0])
    case None => Err("invalid status code")
    case Some(code) => Ok((code, if |parts| > 1 then parts[1] else ""))
  }

  /** The status as Request reads it: from a Status header when there is one, else
      from the first line when the status pattern matches it (statusMatch gives its
      captured "code reason" text), else 200. */
  function StatusOf(h: map<string, seq<string>>, lineOne: Result<string, string>,
                    statusMatch: string -> Option<string>): Result<(int, string), string>
  {
    if HeaderGet(h, "Status") != "" then ParseStatusText(HeaderGet(h, "Status"))
    else match lineOne
      case Err(e) => Err(e)
      case Ok(line) =>
        match statusMatch(line)
        case Some(text) => ParseStatusText(text)
        case None => Ok((200, ""))
  }

  /** A Status header decides the status. Without one, a failed first-line read is
      the error, a first line the status pattern matches gives the captured code and
      reason, and any other first line gives 200 with no reason. */
  lemma StatusOfSound(h: map<string, seq<string>>, lineOne: Result<string, string>,
                      statusMatch: string -> Option<string>, code: nat, reason: string)
    requires ' ' !in Itoa(code) && code < Int64Bound
    ensures HeaderGet(h, "Status") == Itoa(code) + " " + reason ==>
              StatusOf(h, lineOne, statusMatch) == Ok((code, reason))
    ensures HeaderGet(h, "Status") == "" && lineOne.Err? ==>
              StatusOf(h, lineOne, statusMatch) == Err(lineOne.error)
    ensures HeaderGet(h, "Status") == "" && lineOne.Ok? &&
            statusMatch(lineOne.value) == Some(Itoa(code) + " " + reason) ==>
              StatusOf(h, lineOne, statusMatch) == Ok((code, reason))
    ensures HeaderGet(h, "Status") == "" && lineOne.Ok? && statusMatch(lineOne.value).Some? ==>
              StatusOf(h, lineOne, statusMatch) == ParseStatusText(statusMatch(lineOne.value).value)
    ensures (HeaderGet(h, "Status") == "" && lineOne.Ok? && statusMatch(lineOne.value).None?) ==>
              StatusOf(h, lineOne, statusMatch) == Ok((200, ""))
  {
    var s := Itoa(code) + " " + reason;
    SplitAtSpace(Itoa(code), reason);
    AtoiOfItoa(code);
    assert ParseStatusText(s) == Ok((code, reason));
  }

  lemma SplitAtSpace(a: string, rest: string)
    requires ' ' !in a
    ensures SplitN2(a + " " + rest, " ") == [a, rest]
  {
    var s := a + " " + rest;
    assert OccursAt(s, " ", |a|) by {
      assert s[|a|..|a| + 1] == " ";
    }
    forall j | 0 <= j < |a| ensures !OccursAt(s, " ", j) {
      assert s[j..j + 1] == [a[j]];
    }
    IndexIs(s, " ", |a|);
    assert s[..|a|] == a;
    assert s[|a| + 1..] == rest;
  }

  /** chunked: the first transfer encoding is "chunked". */
  predicate Chunked(te: seq<string>) {
    |te| > 0 && te[0] == "chunked"
  }

  /** strconv.ParseInt(s, 10, 64) with its error ignored: 0 for malformed text, the
      nearest int64 bound for a value out of range. */
  function LenientParseInt64(s: string): (r: int)
    ensures -Int64Bound <= r < Int64Bound
    ensures Atoi(s).Some? ==> r == Atoi(s).value
  {
    var neg := |s| > 0 && s[0] == '-';
    var digits := if |s| > 0 && (s[0] == '-' || s[0] == '+') then s[1..] else s;
    if |digits| == 0 || !AllDigits(digits) then 0
    else
      var v := if neg then -(DigitsValue(digits) as int) else DigitsValue(digits);
      if v >= Int64Bound then Int64Bound - 1
      else if v < -Int64Bound then -Int64Bound
      else v
  }

  datatype Response = Response(
    statusCode: int,
    status: string,
    header: map<string, seq<string>>,
    transferEncoding: seq<string>,
    contentLength: int,
    chunked: bool)

  /** What the responder sent before its body: its MIME header (or the error of
      reading it) and, read only when there is no Status header, its first line. */
  datatype ResponseHead = ResponseHead(
    header: Result<map<string, seq<string>>, string>,
    lineOne: Result<string, string>)

  /** The response Request builds from the responder's head. */
  function ResponseOf(head: ResponseHead, statusMatch: string -> Option<string>): Result<Response, string> {
    match head.header
    case Err(e) => Err(e)
    case Ok(h) =>
      match StatusOf(h, head.lineOne, statusMatch)
      case Err(e) => Err(e)
      case Ok(st) =>
        var te := if "Transfer-Encoding" in h then h["Transfer-Encoding"] else [];
        Ok(Response(st.0, st.1, h, te, LenientParseInt64(HeaderGet(h, "Content-Length")), Chunked(te)))
  }

  /** A head that reads and has a status gives a response carrying the header as
      read, its Transfer-Encoding values (none when absent), the Content-Length
      leniently parsed, and a chunked body exactly when the first of those encodings
      is "chunked"; any error of the head is the response's error. */
  lemma ResponseOfSound(head: ResponseHead, statusMatch: string -> Option<string>)
    ensures head.header.Err? ==> ResponseOf(head, statusMatch) == Err(head.header.error)
    ensures head.header.Ok? && StatusOf(head.header.value, head.lineOne, statusMatch).Err? ==>
              ResponseOf(head, statusMatch) == Err(StatusOf(head.header.value, head.lineOne, statusMatch).error)
    ensures head.header.Ok? && StatusOf(head.header.value, head.lineOne, statusMatch).Ok? ==>
              var h := head.header.value;
              var st := StatusOf(h, head.lineOne, statusMatch).value;
              var r := ResponseOf(head, statusMatch);
              r.Ok? && r.value.statusCode == st.0 && r.value.status == st.1 && r.value.header == h
              && ("Transfer-Encoding" in h ==> r.value.transferEncoding == h["Transfer-Encoding"])
              && ("Transfer-Encoding" !in h ==> r.value.transferEncoding == [])
              && r.value.contentLength == LenientParseInt64(HeaderGet(h, "Content-Length"))
              && (r.value.chunked <==> (|r.value.transferEncoding| > 0 && r.value.transferEncoding[0] == "chunked"))
  {
  }

  // ---------------------------------------------------------------------------
  // The client

  /** A request's parameters: a map the caller shares with the client. */
  class Params {
    var m: map<string, string>

    constructor ()
      ensures m == map[]
    {
      m := map[];
    }
  }

  /** The bytes of the header block: CONTENT_LENGTH and its value first when set,
      then each other key and its value in iteration order, each NUL-terminated. */
  method HeaderBlock(m: map<string, string>, order: seq<string>) returns (b: seq<byte>)
    requires IsIterationOrder(order, m.Keys)
    ensures b == Block(HeaderFields(m, order))
  {
    var head: seq<string> := [];
    if ContentLengthKey in m {
      head := [ContentLengthKey, m[ContentLengthKey]];
    }
    b := [];
    if ContentLengthKey in m {
      BlockSnoc2([], ContentLengthKey, m[ContentLengthKey]);
      b := Pair(ContentLengthKey, m[ContentLengthKey]);
    }
    for i := 0 to |order|
      invariant b == Block(head + PairFields(m, order[..i]))
    {
      var k := order[i];
      HeaderBlockStep(m, order, i, head);
      b := b + Pair(k, m[k]);
    }
    assert order[..|order|] == order;
  }

  /** One more key of the order appends its pair to the block. */
  lemma HeaderBlockStep(m: map<string, string>, order: seq<string>, i: nat, head: seq<string>)
    requires forall k | k in order :: k in m
    requires i < |order|
    ensures Block(head + PairFields(m, order[..i + 1]))
            == Block(head + PairFields(m, order[..i])) + Pair(order[i], m[order[i]])
  {
    PairFieldsSnoc(m, order, i);
    var fs := head + PairFields(m, order[..i]);
    assert head + PairFields(m, order[..i + 1]) == fs + [order[i], m[order[i]]];
    BlockSnoc2(fs, order[i], m[order[i]]);
  }

  class SCGIClient {
    /** Everything written to the connection so far. */
    var sent: seq<byte>

    constructor ()
      ensures sent == []
    {
      sent := [];
    }

    method WriteNetstring(content: seq<byte>)
      modifies this`sent
      ensures sent == old(sent) + Netstring(content)
    {
      sent := sent + Utf8(Itoa(|content|));
      sent := sent + [Colon];
      sent := sent + content;
      sent := sent + [Comma];
    }

    /** writePairs: the header block as one netstring; CONTENT_LENGTH is removed
        from the caller's map. */
    method WritePairs(pairs: Params, order: seq<string>)
      requires IsIterationOrder(order, pairs.m.Keys)
      modifies this`sent, pairs`m
      ensures pairs.m == old(pairs.m) - {ContentLengthKey}
      ensures sent == old(sent) + Netstring(Block(HeaderFields(old(pairs.m), order)))
    {
      var b := HeaderBlock(pairs.m, order);
      pairs.m := pairs.m - {ContentLengthKey};
      WriteNetstring(b);
    }

    /** Do: the header, then the body when there is one. */
    method Do(p: Params, order: seq<string>, body: Option<seq<byte>>)
      requires IsIterationOrder(order, p.m.Keys)
      modifies this`sent, p`m
      ensures p.m == old(p.m) - {ContentLengthKey}
      ensures sent == old(sent) + Netstring(Block(HeaderFields(old(p.m), order)))
                      + (if body.Some? then body.value else [])
    {
      WritePairs(p, order);
      if body.Some? {
        sent := sent + body.value;
      }
    }

    /** Request: send the request, then read the response head. */
    method Request(p: Params, order: seq<string>, body: Option<seq<byte>>,
                   head: ResponseHead, statusMatch: string -> Option<string>)
      returns (r: Result<Response, string>)
      requires IsIterationOrder(order, p.m.Keys)
      modifies this`sent, p`m
      ensures p.m == old(p.m) - {ContentLengthKey}
      ensures sent == old(sent) + Netstring(Block(HeaderFields(old(p.m), order)))
                      + (if body.Some? then body.value else [])
      ensures r == ResponseOf(head, statusMatch)
    {
      Do(p, order, body);
      r := ResponseOf(head, statusMatch);
    }

    method Get(p: Params, order: seq<string>, body: Option<seq<byte>>, l: int,
               head: ResponseHead, statusMatch: string -> Option<string>)
      returns (r: Result<Response, string>)
      requires IsIterationOrder(order, GetParams(p.m, l).Keys)
      modifies this`sent, p`m
      ensures p.m == GetParams(old(p.m), l) - {ContentLengthKey}
      ensures sent == old(sent) + Netstring(Block(HeaderFields(GetParams(old(p.m), l), order)))
                      + (if body.Some? then body.value else [])
      ensures r == ResponseOf(head, statusMatch)
    {
      p.m := p.m[RequestMethodKey := "GET"];
      p.m := p.m[ContentLengthKey := Itoa(l)];
      r := Request(p, order, body, head, statusMatch);
    }

    method Head(p: Params, order: seq<string>, head: ResponseHead, statusMatch: string -> Option<string>)
      returns (r: Result<Response, string>)
      requires IsIterationOrder(order, BodilessParams(p.m, "HEAD").Keys)
      modifies this`sent, p`m
      ensures p.m == BodilessParams(old(p.m), "HEAD") - {ContentLengthKey}
      ensures sent == old(sent) + Netstring(Block(HeaderFields(BodilessParams(old(p.m), "HEAD"), order)))
      ensures r == ResponseOf(head, statusMatch)
    {
      p.m := p.m[RequestMethodKey := "HEAD"];
      p.m := p.m[ContentLengthKey := "0"];
      r := Request(p, order, None, head, statusMatch);
    }

    method Options(p: Params, order: seq<string>, head: ResponseHead, statusMatch: string -> Option<string>)
      returns (r: Result<Response, string>)
      requires IsIterationOrder(order, BodilessParams(p.m, "OPTIONS").Keys)
      modifies this`sent, p`m
      ensures p.m == BodilessParams(old(p.m), "OPTIONS") - {ContentLengthKey}
      ensures sent == old(sent) + Netstring(Block(HeaderFields(BodilessParams(old(p.m), "OPTIONS"), order)))
      ensures r == ResponseOf(head, statusMatch)
    {
      p.m := p.m[RequestMethodKey := "OPTIONS"];
      p.m := p.m[ContentLengthKey := "0"];
      r := Request(p, order, None, head, statusMatch);
    }

    /** Post: a missing parameter map is replaced by a new one. */
    method Post(p: Params?, order: seq<string>, verb: string, bodyType: string,
                body: Option<seq<byte>>, l: int, head: ResponseHead, statusMatch: string -> Option<string>)
      returns (used: Params, r: Result<Response, string>)
      requires IsIterationOrder(order, PostParams(if p == null then map[] else p.m, verb, bodyType, l).Keys)
      modifies this`sent, p
      ensures p != null ==> used == p
      ensures p == null ==> fresh(used)
      ensures used.m == PostParams(old(if p == null then map[] else p.m), verb, bodyType, l) - {ContentLengthKey}
      ensures sent == old(sent)
                      + Netstring(Block(HeaderFields(PostParams(old(if p == null then map[] else p.m),
                                                                verb, bodyType, l), order)))
                      + (if body.Some? then body.value else [])
      ensures r == ResponseOf(head, statusMatch)
    {
      var m := if p == null then map[] else p.m;
      ghost var m0 := m;
      if p == null {
        used := new Params();
      } else {
        used := p;
      }
      m := m[RequestMethodKey := ToUpper(verb)];
      if |m[RequestMethodKey]| == 0 || m[RequestMethodKey] == "GET" {
        m := m[RequestMethodKey := "POST"];
      }
      m := m[ContentLengthKey := Itoa(l)];
      if |bodyType| > 0 {
        m := m[ContentTypeKey := bodyType];
      } else {
        m := m[ContentTypeKey := FormUrlEncoded];
      }
      assert m == PostParams(m0, verb, bodyType, l);
      used.m := m;
      r := Request(used, order, body, head, statusMatch);
    }
  }
}
