// Backend addresses of the olaf route compiler: network-address parsing, the
// default port, and the `dial` entries of a reverse proxy's upstreams.
module OlafAddress {
  import opened Wrappers
  import opened GoStrings
  import opened OlafEntity

  datatype NetAddr = NetAddr(network: string, address: string)

  const NetworkTcp: string := "tcp"
  const NetworkUnix: string := "unix"

  /** An address with no ':' gets the default port 80; "" and addresses with a ':' are kept. */
  function AddDefaultPort(addr: string): (r: string)
    ensures addr == "" ==> r == ""
    ensures r == "" || ':' in r
    ensures HasPrefix(r, addr)
    ensures ':' in addr ==> r == addr
  {
    if addr == "" || ':' in addr then addr else addr + ":80"
  }

  /** Adding the default port twice is the same as adding it once. */
  lemma AddDefaultPortIdempotent(addr: string)
    ensures AddDefaultPort(AddDefaultPort(addr)) == AddDefaultPort(addr)
  { }

  /** The text after the first ':' of a, if there is one. */
  function AfterColon(a: string): (r: Option<string>)
    ensures r.Some? ==> |r.value| < |a|
    decreases |a|
  {
    if a == [] then None else if a[0] == ':' then Some(a[1..]) else AfterColon(a[1..])
  }

  /** `\d+` */
  predicate Digits1(s: string)
    decreases |s|
  {
    |s| > 0 && IsDigit(s[0]) && (|s| == 1 || Digits1(s[1..]))
  }

  /** `\d+(-\d+)?`, the port or port range after the ':'. */
  predicate PortSpec(p: string)
    decreases |p|
  {
    |p| > 0 && IsDigit(p[0]) && (|p| == 1 || PortSpec(p[1..]) || (p[1] == '-' && Digits1(p[2..])))
  }

  /**
   * The anchored pattern `^([^:]+)?(:\d+(-\d+)?)?$`: an optional host without ':'
   * and an optional ':' port or port range.  The host group cannot take a ':',
   * so it always ends at the first ':'.
   */
  predicate TcpAddressFormat(a: string) {
    match AfterColon(a)
    case None => true
    case Some(p) => PortSpec(p)
  }

  /** The network address conventions: `tcp/`, `udp/`, `unix/` prefixes; tcp by default. */
  function NewNetAddr(s: string): (r: Result<NetAddr, BuildError>)
    ensures HasPrefix(s, "udp/") ==> r == Err(UnsupportedUdpAddress(s))
    ensures r.Ok? ==> r.value.network == NetworkTcp || r.value.network == NetworkUnix
    ensures r.Ok? && r.value.network == NetworkUnix ==> r.value.address == s && HasPrefix(s, "unix//")
    ensures r.Ok? && r.value.network == NetworkTcp ==>
      r.value.address != "" && ':' in r.value.address && TcpAddressFormat(r.value.address)
    ensures HasPrefix(s, "unix/") ==>
      (r.Ok? <==> HasPrefix(s, "unix//"))
      && (r.Ok? ==> r.value == NetAddr(NetworkUnix, s))
      && (r.Err? ==> r.error == InvalidUnixAddress(s))
    ensures !HasPrefix(s, "udp/") && !HasPrefix(s, "unix/") ==>
      var a := AddDefaultPort(if HasPrefix(s, "tcp/") then s[4..] else s);
      (r.Ok? <==> a != "" && TcpAddressFormat(a))
      && (r.Ok? ==> r.value == NetAddr(NetworkTcp, a))
      && (r.Err? ==> r.error == InvalidTcpAddress(s))
  {
    NetworkPrefixesExclusive(s);
    if HasPrefix(s, "tcp/") then TcpAddr(s, AddDefaultPort(s[4..]))
    else if HasPrefix(s, "udp/") then Err(UnsupportedUdpAddress(s))
    else if HasPrefix(s, "unix/") then
      if HasPrefix(s, "unix//") then Ok(NetAddr(NetworkUnix, s)) else Err(InvalidUnixAddress(s))
    else TcpAddr(s, AddDefaultPort(s))
  }

  /** No address carries two of the "tcp/", "udp/" and "unix/" prefixes. */
  lemma NetworkPrefixesExclusive(s: string)
    ensures HasPrefix(s, "udp/") ==> !HasPrefix(s, "unix/") && !HasPrefix(s, "tcp/")
    ensures HasPrefix(s, "tcp/") ==> !HasPrefix(s, "unix/")
  {
    if HasPrefix(s, "udp/") {
      assert s[1] == 'd';
    }
    if HasPrefix(s, "tcp/") {
      assert s[0] == 't';
    }
  }

  function TcpAddr(s: string, addr: string): Result<NetAddr, BuildError> {
    if addr == "" || !TcpAddressFormat(addr) then Err(InvalidTcpAddress(s)) else Ok(NetAddr(NetworkTcp, addr))
  }

  /** The port text of a TCP address, after its first ':'. */
  function TcpPort(addr: string): string
    requires ':' in addr
  {
    AfterColonFound(addr);
    AfterColon(addr).value
  }

  lemma {:induction false} AfterColonFound(a: string)
    ensures AfterColon(a).Some? <==> ':' in a
    decreases |a|
  {
    if a != [] && a[0] != ':' {
      AfterColonFound(a[1..]);
      assert a == [a[0]] + a[1..];
    }
  }

  /** The port is the second part of SplitN(addr, ":", 2), as the dial check takes it. */
  lemma {:induction false} TcpPortIsSecondPart(addr: string)
    requires ':' in addr
    ensures |SplitN2(addr, ":")| == 2 && TcpPort(addr) == SplitN2(addr, ":")[1]
    decreases |addr|
  {
    CharIndex(addr, ':');
    if addr[0] != ':' {
      assert ':' in addr[1..] by { assert addr == [addr[0]] + addr[1..]; }
      TcpPortIsSecondPart(addr[1..]);
      CharIndex(addr[1..], ':');
      assert !OccursAt(addr, ":", 0);
      assert Index(addr, ":") == Index(addr[1..], ":") + 1;
    } else {
      assert OccursAt(addr, ":", 0);
    }
  }

  /** One upstream entry of a reverse proxy: the dial address, and max_requests only when positive. */
  function BuildUpstream(url: string, maxRequests: int): (r: Result<Dict, BuildError>)
    ensures r.Ok? ==> r.value.Keys == (if maxRequests > 0 then {"dial", "max_requests"} else {"dial"})
    ensures r.Ok? && maxRequests > 0 ==> r.value["max_requests"] == Int(maxRequests)
  {
    var na :- NewNetAddr(url);
    if na.network == NetworkTcp && '-' in TcpPort(na.address) then Err(InvalidTcpAddress(url))
    else
      var m := map["dial" := Str(na.address)];
      Ok(if maxRequests > 0 then m["max_requests" := Int(maxRequests)] else m)
  }

  /**
   * An upstream entry is built exactly when the address is valid and, for TCP,
   * its port is not a range; it dials the normalised address.
   */
  lemma BuildUpstreamAccepts(url: string, maxRequests: int)
    ensures var r := BuildUpstream(url, maxRequests); var na := NewNetAddr(url);
      (r.Ok? <==> na.Ok? && (na.value.network == NetworkTcp ==> '-' !in TcpPort(na.value.address)))
      && (r.Ok? ==> r.value["dial"] == Str(na.value.address))
  { }

  /** A port spec without '-' is a plain run of digits. */
  lemma {:induction false} PortSpecWithoutRange(p: string)
    requires PortSpec(p) && '-' !in p
    ensures Digits1(p)
    decreases |p|
  {
    if |p| > 1 {
      assert p[1] in p;
      assert '-' !in p[1..];
      PortSpecWithoutRange(p[1..]);
    }
  }

  lemma {:induction false} Digits1AllDigits(s: string)
    requires Digits1(s)
    ensures |s| > 0 && AllDigits(s)
    decreases |s|
  {
    if |s| > 1 {
      Digits1AllDigits(s[1..]);
      assert forall i | 1 <= i < |s| :: s[i] == s[1..][i - 1];
    }
  }

  /** A dialled TCP address has a single port: a non-empty run of digits. */
  lemma DialedTcpPortIsDigits(url: string)
    requires BuildUpstream(url, 0).Ok? && NewNetAddr(url).value.network == NetworkTcp
    ensures var a := NewNetAddr(url).value.address; |TcpPort(a)| > 0 && AllDigits(TcpPort(a))
  {
    BuildUpstreamAccepts(url, 0);
    var a := NewNetAddr(url).value.address;
    AfterColonFound(a);
    PortSpecWithoutRange(TcpPort(a));
    Digits1AllDigits(TcpPort(a));
  }
}
