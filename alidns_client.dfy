// The request builder of the Alibaba Cloud DNS client (libdns alidns,
// aliSimple.go): credentials, the ordered list of query parameters a request
// carries, and the string that is signed for it.
module AlidnsClient {
  import opened Wrappers
  import opened GoStrings

  const DefaultRegion: string := "cn-hangzhou"

  /** CredInfo. */
  datatype CredInfo = CredInfo(accKeyID: string, accKeySecret: string, regionID: string)

  /** newCredInfo: none without a key ID or a secret; the region defaults to cn-hangzhou. */
  function NewCredInfo(id: string, secret: string, region: string): (r: Option<CredInfo>)
    ensures r.None? <==> (id == "" || secret == "")
    ensures r.Some? ==> r.value.accKeyID == id && r.value.accKeySecret == secret
    ensures r.Some? ==> r.value.regionID == (if region == "" then DefaultRegion else region)
  {
    if id == "" || secret == "" then None
    else Some(CredInfo(id, secret, if |region| == 0 then DefaultRegion else region))
  }

  /** A query parameter. */
  datatype VKey = VKey(key: string, val: string)

  /** The parameters every request starts with, in this order. The nonce is the
      clock's nanoseconds and the timestamp its UTC rendering, both given. */
  function InitialParams(cred: CredInfo, nanos: int, timestamp: string): (m: seq<VKey>)
    ensures |m| == 7 && m[0] == VKey("AccessKeyId", cred.accKeyID)
  {
    [VKey("AccessKeyId", cred.accKeyID),
     VKey("Format", "json"),
     VKey("SignatureMethod", "HMAC-SHA1"),
     VKey("SignatureNonce", Itoa(nanos)),
     VKey("SignatureVersion", "1.0"),
     VKey("Timestamp", timestamp),
     VKey("Version", "2015-01-09")]
  }

  /** The API endpoint for a scheme, http when none is given. */
  function APIHost(scheme: string): (h: string)
    ensures HasSuffix(h, "://alidns.aliyuncs.com/")
  {
    var s := if scheme == "" then "http" else scheme;
    var h := s + "://alidns.aliyuncs.com/";
    assert h[|h| - |"://alidns.aliyuncs.com/"|..] == "://alidns.aliyuncs.com/";
    h
  }

  // ---------------------------------------------------------------------------
  // Keys

  predicate HasKey(m: seq<VKey>, key: string) {
    exists i :: 0 <= i < |m| && m[i].key == key
  }

  predicate KeysUnique(m: seq<VKey>) {
    forall i, j | 0 <= i < j < |m| :: m[i].key != m[j].key
  }

  function Keys(m: seq<VKey>): (ks: seq<string>)
    ensures |ks| == |m| && forall i | 0 <= i < |m| :: ks[i] == m[i].key
  {
    if m == [] then [] else [m[0].key] + Keys(m[1..])
  }

  /** The position of the first parameter with the key. */
  function KeyIndex(m: seq<VKey>, key: string): (i: nat)
    requires HasKey(m, key)
    ensures i < |m| && m[i].key == key
    ensures forall j | 0 <= j < i :: m[j].key != key
  {
    if m[0].key == key then 0
    else
      assert HasKey(m[1..], key) by {
        var j :| 0 <= j < |m| && m[j].key == key;
        assert m[1..][j - 1].key == key;
      }
      1 + KeyIndex(m[1..], key)
  }

  /** The initial parameters have distinct keys. */
  lemma InitialKeysUnique(cred: CredInfo, nanos: int, timestamp: string)
    ensures KeysUnique(InitialParams(cred, nanos, timestamp))
  {
    var m := InitialParams(cred, nanos, timestamp);
    assert Keys(m) == ["AccessKeyId", "Format", "SignatureMethod", "SignatureNonce",
                       "SignatureVersion", "Timestamp", "Version"];
    assert m[3].key[9] == 'N' && m[4].key[9] == 'V';
  }

  // ---------------------------------------------------------------------------
  // Sorting by key

  /** Sorted by key, ascending. */
  predicate SortedByKey(m: seq<VKey>) {
    forall i, j | 0 <= i < j < |m| :: StringLe(m[i].key, m[j].key)
  }

  /** x goes before the first parameter whose key is not below its own. */
  function InsertByKey(x: VKey, m: seq<VKey>): (r: seq<VKey>)
    requires SortedByKey(m)
    ensures SortedByKey(r)
    ensures multiset(r) == multiset(m) + multiset{x}
    ensures |r| == |m| + 1
    decreases |m|
  {
    if m == [] then [x]
    else if StringLe(x.key, m[0].key) then
      BelowHeadBelowAll(x.key, m);
      ConsSorted(x, m);
      [x] + m
    else
      StringLeTotal(x.key, m[0].key);
      var t := InsertByKey(x, m[1..]);
      assert m == [m[0]] + m[1..];
      HeadBelowInserted(x, m, t);
      ConsSorted(m[0], t);
      [m[0]] + t
  }

  lemma BelowHeadBelowAll(k: string, m: seq<VKey>)
    requires SortedByKey(m) && m != [] && StringLe(k, m[0].key)
    ensures forall j | 0 <= j < |m| :: StringLe(k, m[j].key)
  {
    forall j | 0 < j < |m|
      ensures StringLe(k, m[j].key)
    {
      StringLeTransitive(k, m[0].key, m[j].key);
    }
  }

  lemma ConsSorted(x: VKey, m: seq<VKey>)
    requires SortedByKey(m) && forall j | 0 <= j < |m| :: StringLe(x.key, m[j].key)
    ensures SortedByKey([x] + m)
  {
    var r := [x] + m;
    forall i, j | 0 <= i < j < |r|
      ensures StringLe(r[i].key, r[j].key)
    {
      assert r[j] == m[j - 1];
      if i > 0 {
        assert r[i] == m[i - 1];
      }
    }
  }

  lemma HeadBelowInserted(x: VKey, m: seq<VKey>, t: seq<VKey>)
    requires SortedByKey(m) && m != [] && StringLe(m[0].key, x.key)
    requires multiset(t) == multiset(m[1..]) + multiset{x}
    ensures forall j | 0 <= j < |t| :: StringLe(m[0].key, t[j].key)
  {
    forall j | 0 <= j < |t|
      ensures StringLe(m[0].key, t[j].key)
    {
      var y := t[j];
      assert y in multiset(t);
      if y != x {
        assert y in multiset(m[1..]);
        var k :| 0 <= k < |m| - 1 && m[1..][k] == y;
        assert m[k + 1] == y;
      }
    }
  }

  /** The parameters sorted by key: a permutation of them, in ascending key order.
      Equal keys keep their relative order. */
  function SortByKey(m: seq<VKey>): (r: seq<VKey>)
    ensures SortedByKey(r)
    ensures multiset(r) == multiset(m)
    ensures |r| == |m|
    decreases |m|
  {
    if m == [] then []
    else
      assert m == [m[0]] + m[1..];
      InsertByKey(m[0], SortByKey(m[1..]))
  }

  /** Sorting a sorted list changes nothing. */
  lemma {:induction false} SortSortedIsIdentity(m: seq<VKey>)
    requires SortedByKey(m)
    ensures SortByKey(m) == m
    decreases |m|
  {
    if m != [] {
      assert SortedByKey(m[1..]);
      SortSortedIsIdentity(m[1..]);
      assert m == [m[0]] + m[1..];
      if m[1..] != [] {
        assert StringLe(m[0].key, m[1].key);
      }
    }
  }

  /** Two strings that agree up to position k and differ there are ordered by
      their characters at k. */
  lemma {:induction false} StringLeAt(a: string, b: string, k: nat)
    requires k < |a| && k < |b| && a[..k] == b[..k] && a[k] < b[k]
    ensures StringLe(a, b)
    decreases k
  {
    if k > 0 {
      assert a[0] == a[..k][0] && b[0] == b[..k][0];
      assert a[1..][..k - 1] == a[..k][1..] && b[1..][..k - 1] == b[..k][1..];
      StringLeAt(a[1..], b[1..], k - 1);
    }
  }

  /** The initial parameters are already in key order. */
  lemma InitialParamsSorted(cred: CredInfo, nanos: int, timestamp: string)
    ensures SortedByKey(InitialParams(cred, nanos, timestamp))
  {
    var m := InitialParams(cred, nanos, timestamp);
    forall k | 0 <= k < |m| - 1
      ensures StringLe(m[k].key, m[k + 1].key)
    {
      var at := if k == 2 || k == 3 then 9 else 0;
      assert m[k].key[..at] == m[k + 1].key[..at] && m[k].key[at] < m[k + 1].key[at] by {
        if k == 0 {
          assert m[0].key == "AccessKeyId" && m[1].key == "Format";
        } else if k == 1 {
          assert m[1].key == "Format" && m[2].key == "SignatureMethod";
        } else if k == 2 {
          assert m[2].key == "SignatureMethod" && m[3].key == "SignatureNonce";
        } else if k == 3 {
          assert m[3].key == "SignatureNonce" && m[4].key == "SignatureVersion";
        } else if k == 4 {
          assert m[4].key == "SignatureVersion" && m[5].key == "Timestamp";
        } else {
          assert m[5].key == "Timestamp" && m[6].key == "Version";
        }
      }
      StringLeAt(m[k].key, m[k + 1].key, at);
    }
    forall i, j | 0 <= i < j < |m|
      ensures StringLe(m[i].key, m[j].key)
    {
      AdjacentSorted(m, i, j);
    }
  }

  /** Key order follows from key order of neighbours. */
  lemma {:induction false} AdjacentSorted(m: seq<VKey>, i: nat, j: nat)
    requires i < j < |m|
    requires forall k | 0 <= k < |m| - 1 :: StringLe(m[k].key, m[k + 1].key)
    ensures StringLe(m[i].key, m[j].key)
    decreases j - i
  {
    if j > i + 1 {
      AdjacentSorted(m, i, j - 1);
      StringLeTransitive(m[i].key, m[j - 1].key, m[j].key);
    }
  }

  // ---------------------------------------------------------------------------
  // The string to sign

  /** urlEncode: '+' becomes %20, '*' becomes %2A and %7E becomes '~', and the
      result is query-escaped. */
  function URLEncode(s: string, queryEscape: string -> string): (r: string)
    ensures r == queryEscape(ReplaceAll(ReplaceAll(ReplaceAll(s, "+", "%20"), "*", "%2A"), "%7E", "~"))
  {
    var s1 := ReplaceAll(s, "+", "%20");
    var s2 := ReplaceAll(s1, "*", "%2A");
    queryEscape(ReplaceAll(s2, "%7E", "~"))
  }

  /** What urlEncode hands to the query escaper holds neither '+' nor '*'. */
  lemma URLEncodeRemovesPlusAndStar(s: string)
    ensures var t := ReplaceAll(ReplaceAll(ReplaceAll(s, "+", "%20"), "*", "%2A"), "%7E", "~");
            '+' !in t && '*' !in t
  {
    var s1 := ReplaceAll(s, "+", "%20");
    ReplaceAllCharRemoves(s, '+', "%20");
    ReplaceAllKeepsAbsent(s1, "*", "%2A", '+');
    var s2 := ReplaceAll(s1, "*", "%2A");
    ReplaceAllCharRemoves(s1, '*', "%2A");
    ReplaceAllKeepsAbsent(s2, "%7E", "~", '+');
    ReplaceAllKeepsAbsent(s2, "%7E", "~", '*');
  }

  /** reqStrToSign: the method (GET when none is given), "%2F", and the encoded
      query, joined by '&'. */
  function StringToSign(query: string, verb: string, queryEscape: string -> string): (r: string)
    ensures var m := if verb == "" then "GET" else verb;
            r == m + "&%2F&" + URLEncode(query, queryEscape)
  {
    var m := if verb == "" then "GET" else verb;
    m + "&" + "%2F" + "&" + URLEncode(query, queryEscape)
  }

  /** The method can be read back: the signed string starts with it and "&%2F&". */
  lemma StringToSignStartsWithMethod(query: string, verb: string, queryEscape: string -> string)
    requires '&' !in verb
    ensures var m := if verb == "" then "GET" else verb;
            var r := StringToSign(query, verb, queryEscape);
            HasPrefix(r, m + "&%2F&") && Index(r, "&") == |m|
  {
    var m := if verb == "" then "GET" else verb;
    var r := StringToSign(query, verb, queryEscape);
    assert r[..|m| + 5] == m + "&%2F&";
    assert r[|m|..|m| + 1] == "&";
    forall j | 0 <= j < |m|
      ensures !OccursAt(r, "&", j)
    {
      assert r[j..j + 1] == [m[j]];
    }
    IndexIs(r, "&", |m|);
  }

  /** reqMapToStr: url.Values.Encode of the parameters, "k=v" pairs with both
      sides query-escaped, sorted by key (values of one key in the order they were
      added), joined by '&'. */
  function QueryString(m: seq<VKey>, queryEscape: string -> string): string {
    Join(EncodedPairs(SortByKey(m), queryEscape), "&")
  }

  function EncodedPairs(m: seq<VKey>, queryEscape: string -> string): (r: seq<string>)
    ensures |r| == |m|
    ensures forall i | 0 <= i < |m| :: r[i] == queryEscape(m[i].key) + "=" + queryEscape(m[i].val)
  {
    if m == [] then [] else [queryEscape(m[0].key) + "=" + queryEscape(m[0].val)] + EncodedPairs(m[1..], queryEscape)
  }

  // ---------------------------------------------------------------------------
  // The client

  class AliClient {
    var apiHost: string
    var reqMap: seq<VKey>
    var sigStr: string
    var sigPwd: string

    constructor (apiHost: string, reqMap: seq<VKey>, sigPwd: string)
      ensures this.apiHost == apiHost && this.reqMap == reqMap
      ensures this.sigStr == "" && this.sigPwd == sigPwd
    {
      this.apiHost := apiHost;
      this.reqMap := reqMap;
      this.sigStr := "";
      this.sigPwd := sigPwd;
    }

    /** addReqBody: refuses an empty key with an empty value and a key already
        present; otherwise appends the parameter. */
    method AddReqBody(key: string, value: string) returns (err: Option<string>)
      modifies this`reqMap
      ensures err.Some? <==> ((key == "" && value == "") || HasKey(old(reqMap), key))
      ensures err.Some? ==> reqMap == old(reqMap)
      ensures err.None? ==> reqMap == old(reqMap) + [VKey(key, value)]
    {
      if key == "" && value == "" {
        return Some("key or value is Empty");
      }
      var el := VKey(key, value);
      for i := 0 to |reqMap|
        invariant forall j | 0 <= j < i :: reqMap[j].key != key
      {
        if reqMap[i].key == el.key {
          return Some("duplicate keys");
        }
      }
      reqMap := reqMap + [el];
      err := None;
    }

    /** setReqBody: replaces the first parameter with the key in place; an error
        when the key is absent, or key and value are both empty. */
    method SetReqBody(key: string, value: string) returns (err: Option<string>)
      modifies this`reqMap
      ensures err.Some? <==> ((key == "" && value == "") || !HasKey(old(reqMap), key))
      ensures err.Some? ==> reqMap == old(reqMap)
      ensures err.None? ==> reqMap == old(reqMap)[KeyIndex(old(reqMap), key) := VKey(key, value)]
    {
      if key == "" && value == "" {
        return Some("key or value is Empty");
      }
      var el := VKey(key, value);
      for i := 0 to |reqMap|
        invariant forall j | 0 <= j < i :: reqMap[j].key != key
        invariant reqMap == old(reqMap)
      {
        if reqMap[i].key == el.key {
          assert KeyIndex(reqMap, key) == i;
          reqMap := reqMap[i := el];
          return None;
        }
      }
      return Some("entry of " + key + " not found");
    }

    /** signReq: refuses an empty secret or parameter list; otherwise sorts the
        parameters by key and signs the string built from them with HMAC-SHA1
        under the secret followed by '&' (the signer is given). */
    method SignReq(verb: string, queryEscape: string -> string, hmacBase64: (string, string) -> string)
      returns (err: Option<string>)
      modifies this`reqMap, this`sigStr
      ensures err.Some? <==> (sigPwd == "" || |old(reqMap)| == 0)
      ensures err.Some? ==> reqMap == old(reqMap) && sigStr == old(sigStr)
      ensures err.None? ==> reqMap == SortByKey(old(reqMap))
      ensures err.None? ==>
                sigStr == hmacBase64(sigPwd + "&", StringToSign(QueryString(reqMap, queryEscape), verb, queryEscape))
    {
      if sigPwd == "" || |reqMap| == 0 {
        return Some("alicloud: AccessKeySecret or Request(includes AccessKeyId) is Misssing");
      }
      reqMap := SortByKey(reqMap);
      var str := QueryString(reqMap, queryEscape);
      str := StringToSign(str, verb, queryEscape);
      sigStr := hmacBase64(sigPwd + "&", str);
      err := None;
    }
  }

  /** Adding a parameter keeps the keys distinct. */
  lemma AddKeepsKeysUnique(m: seq<VKey>, key: string, value: string)
    requires KeysUnique(m) && !HasKey(m, key)
    ensures KeysUnique(m + [VKey(key, value)])
  {
  }

  /** Setting a parameter keeps the keys, in order, and the key then reads back the
      new value. */
  lemma SetKeepsKeys(m: seq<VKey>, key: string, value: string)
    requires HasKey(m, key)
    ensures var r := m[KeyIndex(m, key) := VKey(key, value)];
            Keys(r) == Keys(m) && KeyIndex(r, key) == KeyIndex(m, key) && r[KeyIndex(r, key)].val == value
  {
    var i := KeyIndex(m, key);
    var r := m[i := VKey(key, value)];
    assert HasKey(r, key) by {
      assert r[i].key == key;
    }
    KeyIndexIs(r, key, i);
  }

  lemma KeyIndexIs(m: seq<VKey>, key: string, i: nat)
    requires i < |m| && m[i].key == key && forall j | 0 <= j < i :: m[j].key != key
    ensures HasKey(m, key) && KeyIndex(m, key) == i
  {
    var k := KeyIndex(m, key);
  }

  /** Sorting keeps distinct keys distinct. */
  lemma SortKeepsKeysUnique(m: seq<VKey>)
    requires KeysUnique(m)
    ensures KeysUnique(SortByKey(m))
  {
    var r := SortByKey(m);
    forall i, j | 0 <= i < j < |r|
      ensures r[i].key != r[j].key
    {
      PermutationKeysDistinct(m, r, i, j);
    }
  }

  /** A permutation of a list with distinct keys has distinct keys. */
  lemma PermutationKeysDistinct(m: seq<VKey>, r: seq<VKey>, i: nat, j: nat)
    requires KeysUnique(m) && multiset(r) == multiset(m) && i < j < |r|
    ensures r[i].key != r[j].key
  {
    assert r[i] in multiset(m) && r[j] in multiset(m);
    var a :| 0 <= a < |m| && m[a] == r[i];
    var b :| 0 <= b < |m| && m[b] == r[j];
    if a == b {
      CountAtLeastTwo(r, i, j);
      UniqueCountOne(m, a);
      assert false;
    }
  }

  /** A value found at two positions is counted at least twice. */
  lemma CountAtLeastTwo(r: seq<VKey>, i: nat, j: nat)
    requires i < j < |r| && r[i] == r[j]
    ensures multiset(r)[r[i]] >= 2
  {
    assert r == r[..i] + [r[i]] + r[i + 1..];
    var rest := r[i + 1..];
    assert rest[j - i - 1] == r[j];
    assert r[j] in rest;
  }

  /** In a list with distinct keys an entry occurs once. */
  lemma UniqueCountOne(m: seq<VKey>, a: nat)
    requires KeysUnique(m) && a < |m|
    ensures multiset(m)[m[a]] == 1
  {
    assert m == m[..a] + [m[a]] + m[a + 1..];
    assert forall k | 0 <= k < a :: m[..a][k] != m[a];
    assert forall k | a < k < |m| :: m[k] != m[a];
    assert m[a] !in m[..a];
    assert m[a] !in m[a + 1..];
  }

  /** getAliClientSche: an error without credentials (and an empty client);
      otherwise a client for the scheme's endpoint holding the seven initial
      parameters and the secret, with no signature yet. */
  method GetAliClientSche(cred: Option<CredInfo>, scheme: string, nanos: int, timestamp: string)
    returns (c: AliClient, err: Option<string>)
    ensures fresh(c)
    ensures err.Some? <==> cred.None?
    ensures cred.None? ==> c.apiHost == "" && c.reqMap == [] && c.sigStr == "" && c.sigPwd == ""
    ensures cred.Some? ==> c.apiHost == APIHost(scheme) && c.reqMap == InitialParams(cred.value, nanos, timestamp)
                           && c.sigStr == "" && c.sigPwd == cred.value.accKeySecret
  {
    if cred.None? {
      c := new AliClient("", [], "");
      return c, Some("alicloud: credentials missing");
    }
    c := new AliClient(APIHost(scheme), InitialParams(cred.value, nanos, timestamp), cred.value.accKeySecret);
    err := None;
  }
}
