/** utils/socks5/func.go: the reply and the address of a request (sections 5 and 6 of RFC 1928). */
module Socks5 {
  import opened Bytes
  import opened Wrappers

  const VERSION: byte := 5
  const IPV4_ADDRESS: byte := 1
  const FQDN_ADDRESS: byte := 3
  const IPV6_ADDRESS: byte := 4

  // net.IP is a byte string of any length; Port is any int.
  datatype AddrSpec = AddrSpec(fqdn: seq<byte>, ip: seq<byte>, port: int)

  datatype Error = UnexpectedEof | BadVersion(v: byte) | UnrecognizedAddrType

  datatype FormatError = CannotFormat

  // net.IP.To4: a 4-byte address as it is, an IPv4-mapped one by its last four bytes.
  function To4(ip: seq<byte>): Option<seq<byte>> {
    if |ip| == 4 then Some(ip)
    else if |ip| == 16 && ip[..12] == [0, 0, 0, 0, 0, 0, 0, 0, 0, 0, 255, 255] then Some(ip[12..])
    else None
  }

  function To16(ip: seq<byte>): Option<seq<byte>> {
    if |ip| == 4 then Some([0, 0, 0, 0, 0, 0, 0, 0, 0, 0, 255, 255] + ip)
    else if |ip| == 16 then Some(ip)
    else None
  }

  // uint16(port)
  function Port16(port: int): int { port % 0x1_0000 }

  // What SendReply writes; addr is nil for None.
  function Reply(resp: byte, addr: Option<AddrSpec>): Result<seq<byte>, FormatError> {
    match Body(addr)
    case Err(e) => Err(e)
    case Ok((kind, body, port)) =>
      Ok([VERSION, resp, 0, kind] + body + [port / 256, port % 256])
  }

  function Body(addr: Option<AddrSpec>): (r: Result<(byte, seq<byte>, int), FormatError>)
    ensures r.Ok? ==> 0 <= r.value.2 < 0x1_0000
  {
    match addr
    case None => Ok((IPV4_ADDRESS, [0, 0, 0, 0], 0))
    case Some(a) =>
      if a.fqdn != [] then Ok((FQDN_ADDRESS, [|a.fqdn| % 256] + a.fqdn, Port16(a.port)))
      else if To4(a.ip).Some? then Ok((IPV4_ADDRESS, To4(a.ip).value, Port16(a.port)))
      else if To16(a.ip).Some? then Ok((IPV6_ADDRESS, To16(a.ip).value, Port16(a.port)))
      else Err(CannotFormat)
  }

  // What ReadAddrSpec returns, and what it leaves of the stream.
  function ParseAddr(s: seq<byte>): Result<(AddrSpec, seq<byte>), Error> {
    if s == [] then Err(UnexpectedEof)
    else if s[0] == IPV4_ADDRESS then ParseHost(s[1..], 4, false)
    else if s[0] == IPV6_ADDRESS then ParseHost(s[1..], 16, false)
    else if s[0] == FQDN_ADDRESS then
      if |s| == 1 then Err(UnexpectedEof) else ParseHost(s[2..], s[1], true)
    else Err(UnrecognizedAddrType)
  }

  function ParseHost(s: seq<byte>, n: nat, named: bool): Result<(AddrSpec, seq<byte>), Error> {
    if |s| < n + 2 then Err(UnexpectedEof)
    else
      var port := s[n] as int * 256 + s[n + 1];
      Ok((if named then AddrSpec(s[..n], [], port) else AddrSpec([], s[..n], port), s[n + 2..]))
  }

  // What ReadDestAddr returns.
  function ParseDest(s: seq<byte>): Result<(AddrSpec, seq<byte>), Error> {
    if |s| < 3 then Err(UnexpectedEof)
    else if s[0] != VERSION then Err(BadVersion(s[0]))
    else ParseAddr(s[3..])
  }

  /** A connection to read from.  It delivers its bytes in chunks of its own choosing, at least
      one at a time, and then the end of the stream. */
  class Conn {
    var pending: seq<byte>

    constructor (bytes: seq<byte>)
      ensures pending == bytes
    {
      pending := bytes;
    }

    // One Read into a buffer of `room` bytes.
    method Read(room: nat) returns (chunk: seq<byte>, eof: bool)
      requires 0 < room
      modifies this
      ensures old(pending) == chunk + pending && |chunk| <= room
      ensures eof == (old(pending) == []) && (eof <==> chunk == [])
    {
      if pending == [] {
        return [], true;
      }
      var n: nat :| 1 <= n <= room && n <= |pending|;
      chunk, eof := pending[..n], false;
      pending := pending[n..];
    }
  }

  // io.ReadAtLeast(conn, buf, len(buf)): as many reads as it takes.
  method ReadFull(conn: Conn, n: nat) returns (r: Result<seq<byte>, Error>)
    modifies conn
    ensures r.Ok? <==> n <= |old(conn.pending)|
    ensures r.Ok? ==> r.value == old(conn.pending)[..n] && conn.pending == old(conn.pending)[n..]
    ensures r.Err? ==> r.error == UnexpectedEof
  {
    var buf: seq<byte> := [];
    while |buf| < n
      invariant |buf| <= n && buf + conn.pending == old(conn.pending)
    {
      var chunk, eof := conn.Read(n - |buf|);
      if eof {
        return Err(UnexpectedEof);
      }
      buf := buf + chunk;
    }
    return Ok(buf);
  }

  method ReadAddrSpec(conn: Conn) returns (r: Result<AddrSpec, Error>)
    modifies conn
    ensures match ParseAddr(old(conn.pending))
      case Ok((d, rest)) => r == Ok(d) && conn.pending == rest
      case Err(e) => r == Err(e)
  {
    ghost var s := conn.pending;
    var addrType, eof := conn.Read(1);
    if eof {
      return Err(UnexpectedEof);
    }
    assert addrType == s[..1] && conn.pending == s[1..];
    var d := AddrSpec([], [], 0);
    if addrType[0] == IPV4_ADDRESS {
      var addr := ReadFull(conn, 4);
      if addr.Err? {
        return Err(addr.error);
      }
      d := d.(ip := addr.value);
    } else if addrType[0] == IPV6_ADDRESS {
      var addr := ReadFull(conn, 16);
      if addr.Err? {
        return Err(addr.error);
      }
      d := d.(ip := addr.value);
    } else if addrType[0] == FQDN_ADDRESS {
      addrType, eof := conn.Read(1);
      if eof {
        return Err(UnexpectedEof);
      }
      assert addrType[0] == s[1] && conn.pending == s[2..];
      var fqdn := ReadFull(conn, addrType[0]);
      if fqdn.Err? {
        return Err(fqdn.error);
      }
      d := d.(fqdn := fqdn.value);
    } else {
      return Err(UnrecognizedAddrType);
    }
    var port := ReadFull(conn, 2);
    if port.Err? {
      return Err(port.error);
    }
    d := d.(port := port.value[0] as int * 256 + port.value[1]);
    return Ok(d);
  }

  method ReadDestAddr(conn: Conn) returns (r: Result<AddrSpec, Error>)
    modifies conn
    ensures match ParseDest(old(conn.pending))
      case Ok((d, rest)) => r == Ok(d) && conn.pending == rest
      case Err(e) => r == Err(e)
  {
    var header := ReadFull(conn, 3);
    if header.Err? {
      return Err(header.error);
    }
    if header.value[0] != VERSION {
      return Err(BadVersion(header.value[0]));
    }
    r := ReadAddrSpec(conn);
  }

  // SendReply, up to the write of the message.
  method SendReply(resp: byte, addr: Option<AddrSpec>) returns (r: Result<seq<byte>, FormatError>)
    ensures r == Reply(resp, addr)
    ensures r.Ok? ==> Laid(r.value, resp, addr)
  {
    ReplyLaid(resp, addr);
    var addrType: byte;
    var addrBody: seq<byte>;
    var addrPort: int;
    if addr.None? {
      addrType, addrBody, addrPort := IPV4_ADDRESS, [0, 0, 0, 0], 0;
    } else if addr.value.fqdn != [] {
      addrType, addrBody := FQDN_ADDRESS, [|addr.value.fqdn| % 256] + addr.value.fqdn;
      addrPort := addr.value.port % 0x1_0000;
    } else if To4(addr.value.ip).Some? {
      addrType, addrBody, addrPort := IPV4_ADDRESS, To4(addr.value.ip).value, addr.value.port % 0x1_0000;
    } else if To16(addr.value.ip).Some? {
      addrType, addrBody, addrPort := IPV6_ADDRESS, To16(addr.value.ip).value, addr.value.port % 0x1_0000;
    } else {
      return Err(CannotFormat);
    }
    var n := |addrBody|;
    var msg := new byte[6 + n](_ => 0);
    msg[0] := VERSION;
    msg[1] := resp;
    msg[2] := 0;
    msg[3] := addrType;
    forall k | 0 <= k < n {
      msg[4 + k] := addrBody[k];
    }
    msg[4 + n] := addrPort / 256;
    msg[4 + n + 1] := addrPort % 256;
    assert msg[..] == [VERSION, resp, 0, addrType] + addrBody + [addrPort / 256, addrPort % 256];
    return Ok(msg[..]);
  }

  // The address that a reply stands for: the name if there is one, an IPv4-mapped IP as IPv4, the
  // port as 16 bits, and the unspecified address for nil.
  function Normal(addr: Option<AddrSpec>): AddrSpec {
    match addr
    case None => AddrSpec([], [0, 0, 0, 0], 0)
    case Some(a) =>
      if a.fqdn != [] then AddrSpec(a.fqdn, [], Port16(a.port))
      else AddrSpec([], if To4(a.ip).Some? then To4(a.ip).value else a.ip, Port16(a.port))
  }

  // A reply that could be formatted is read back as the address it stands for, leaving exactly
  // the rest, if and only if the name fits the length byte.
  lemma RoundTrip(resp: byte, addr: Option<AddrSpec>, rest: seq<byte>)
    requires Reply(resp, addr).Ok?
    ensures ParseDest(Reply(resp, addr).value + rest) == Ok((Normal(addr), rest))
      <==> (addr.Some? ==> |addr.value.fqdn| <= 255)
  {
    var (kind, body, port) := Body(addr).value;
    ReplyParses(resp, addr, rest);
    if kind == FQDN_ADDRESS {
      var name := addr.value.fqdn;
      HostRoundTrip(name, port, rest, true);
      LongName(name, port, rest);
    } else {
      HostRoundTrip(body, port, rest, false);
    }
  }

  // Up to the host, a reply is read as it was written.
  lemma ReplyParses(resp: byte, addr: Option<AddrSpec>, rest: seq<byte>)
    requires Reply(resp, addr).Ok?
    ensures var (kind, body, port) := Body(addr).value;
      ParseDest(Reply(resp, addr).value + rest) ==
        if kind == FQDN_ADDRESS
        then ParseHost(addr.value.fqdn + [port / 256, port % 256] + rest, |addr.value.fqdn| % 256, true)
        else ParseHost(body + [port / 256, port % 256] + rest, |body|, false)
  {
    var (kind, body, port) := Body(addr).value;
    var s := Reply(resp, addr).value + rest;
    var t := s[3..];
    assert t == [kind] + body + [port / 256, port % 256] + rest;
    assert t[1..] == body + [port / 256, port % 256] + rest;
    if kind == FQDN_ADDRESS {
      assert t[2..] == addr.value.fqdn + [port / 256, port % 256] + rest;
    }
  }

  lemma HostRoundTrip(host: seq<byte>, port: int, rest: seq<byte>, named: bool)
    requires 0 <= port < 0x1_0000
    ensures ParseHost(host + [port / 256, port % 256] + rest, |host|, named)
      == Ok((if named then AddrSpec(host, [], port) else AddrSpec([], host, port), rest))
  {
    var s := host + [port / 256, port % 256] + rest;
    assert s[..|host|] == host && s[|host| + 2..] == rest;
  }

  // A name of 256 bytes or more comes back cut off.
  lemma LongName(name: seq<byte>, port: int, rest: seq<byte>)
    requires 0 <= port < 0x1_0000
    ensures var r := ParseHost(name + [port / 256, port % 256] + rest, |name| % 256, true);
      255 < |name| ==> r.Ok? && |r.value.0.fqdn| < |name|
  {
  }

  // A reply cannot be formatted exactly when there is no name and the IP has neither 4 nor 16 bytes.
  lemma FormatFails(resp: byte, addr: Option<AddrSpec>)
    ensures Reply(resp, addr).Err? <==>
      addr.Some? && addr.value.fqdn == [] && |addr.value.ip| != 4 && |addr.value.ip| != 16
  {
  }

  // A reply as section 6 of RFC 1928 lays it out: version, code, a zero, the type of the address,
  // the address, and the port in network order.
  predicate Laid(msg: seq<byte>, resp: byte, addr: Option<AddrSpec>) {
    && 6 < |msg| && msg[0] == 5 && msg[1] == resp && msg[2] == 0
    && var host, port := msg[4..|msg| - 2], msg[|msg| - 2] as int * 256 + msg[|msg| - 1];
    match addr
    case None => msg[3] == 1 && host == [0, 0, 0, 0] && port == 0
    case Some(a) =>
      && (port - a.port) % 0x1_0000 == 0
      && if a.fqdn != [] then msg[3] == 3 && host == [|a.fqdn| % 256] + a.fqdn
         else if |a.ip| == 4 then msg[3] == 1 && host == a.ip
         else if Mapped(a.ip) then msg[3] == 1 && host == a.ip[12..]
         else msg[3] == 4 && host == a.ip
  }

  // An IPv4 address in IPv6 clothes: ten zeros, and two bytes of ones.
  predicate Mapped(ip: seq<byte>) {
    |ip| == 16 && (forall k :: 0 <= k < 10 ==> ip[k] == 0) && ip[10] == 255 && ip[11] == 255
  }

  lemma MappedIsTo4(ip: seq<byte>)
    ensures To4(ip).Some? <==> |ip| == 4 || Mapped(ip)
    ensures |ip| == 4 ==> To4(ip) == Some(ip)
    ensures Mapped(ip) ==> To4(ip) == Some(ip[12..])
  {
    if Mapped(ip) {
      assert ip[..12] == [0, 0, 0, 0, 0, 0, 0, 0, 0, 0, 255, 255];
    } else if |ip| == 16 && To4(ip).Some? {
      var zeros: seq<byte> := [0, 0, 0, 0, 0, 0, 0, 0, 0, 0, 255, 255];
      assert forall k :: 0 <= k < 12 ==> ip[k] == ip[..12][k] == zeros[k];
    }
  }

  lemma ReplyLaid(resp: byte, addr: Option<AddrSpec>)
    ensures Reply(resp, addr).Ok? ==> Laid(Reply(resp, addr).value, resp, addr)
  {
    if Reply(resp, addr).Ok? {
      var (kind, body, port) := Body(addr).value;
      var msg := Reply(resp, addr).value;
      assert msg[4..|msg| - 2] == body && msg[|msg| - 2] as int * 256 + msg[|msg| - 1] == port;
      if addr.Some? {
        MappedIsTo4(addr.value.ip);
      }
    }
  }

  // In full, for every address that the protocol can express: what is written is read back as it is,
  // with the port, a name going before an IP and an IPv4-mapped IP coming back as IPv4.
  lemma ExpressibleRoundTrip(resp: byte, a: AddrSpec, rest: seq<byte>)
    requires 0 <= a.port < 0x1_0000 && |a.fqdn| <= 255 && (a.fqdn == [] ==> |a.ip| == 4 || |a.ip| == 16)
    ensures Reply(resp, Some(a)).Ok?
    ensures ParseDest(Reply(resp, Some(a)).value + rest) == Ok((
      if a.fqdn != [] then AddrSpec(a.fqdn, [], a.port)
      else AddrSpec([], if Mapped(a.ip) then a.ip[12..] else a.ip, a.port), rest))
  {
    MappedIsTo4(a.ip);
    RoundTrip(resp, Some(a), rest);
  }

  // A request up to its address, as section 5 of RFC 1928 lays it out.
  function Request(command: byte, reserved: byte, d: AddrSpec): seq<byte>
    requires Readable(d)
  {
    [5, command, reserved]
    + (if |d.ip| == 4 then [1] + d.ip else if |d.ip| == 16 then [4] + d.ip else [3, |d.fqdn|] + d.fqdn)
    + [d.port / 256, d.port % 256]
  }

  // What can come out of a request: an IP of 4 or 16 bytes, or a name of at most 255.
  predicate Readable(d: AddrSpec) {
    0 <= d.port < 0x1_0000 && ((d.fqdn == [] && (|d.ip| == 4 || |d.ip| == 16)) || (d.ip == [] && |d.fqdn| <= 255))
  }

  lemma RequestParses(command: byte, reserved: byte, d: AddrSpec, rest: seq<byte>)
    requires Readable(d)
    ensures ParseDest(Request(command, reserved, d) + rest) == Ok((d, rest))
  {
    var s := Request(command, reserved, d) + rest;
    var tail := [d.port / 256, d.port % 256] + rest;
    if |d.ip| == 4 || |d.ip| == 16 {
      assert s[3..][1..] == d.ip + [d.port / 256, d.port % 256] + rest;
      HostRoundTrip(d.ip, d.port, rest, false);
    } else {
      assert s[3..][2..] == d.fqdn + [d.port / 256, d.port % 256] + rest;
      HostRoundTrip(d.fqdn, d.port, rest, true);
    }
  }

  lemma ParsedHost(s: seq<byte>, n: nat, named: bool)
    requires n + 2 <= |s|
    ensures var (d, rest) := ParseHost(s, n, named).value;
      s == (if named then d.fqdn else d.ip) + [d.port / 256, d.port % 256] + rest
  {
    var (d, rest) := ParseHost(s, n, named).value;
    assert s == s[..n] + [s[n], s[n + 1]] + s[n + 2..];
  }

  lemma ParsedIsRequest(s: seq<byte>, d: AddrSpec, rest: seq<byte>)
    requires ParseDest(s) == Ok((d, rest))
    ensures Readable(d) && s == Request(s[1], s[2], d) + rest
  {
    var t := s[3..];
    if t[0] == 3 {
      ParsedHost(t[2..], t[1], true);
      assert s == [5, s[1], s[2]] + [3, t[1]] + t[2..];
    } else {
      ParsedHost(t[1..], if t[0] == 1 then 4 else 16, false);
      assert s == [5, s[1], s[2]] + [t[0]] + t[1..];
    }
  }

  // An address is read exactly from the requests of the protocol, whatever the command and whatever
  // follows.
  lemma ReadsExactlyRequests(s: seq<byte>, d: AddrSpec, rest: seq<byte>)
    ensures ParseDest(s) == Ok((d, rest))
      <==> Readable(d) && exists command, reserved :: s == Request(command, reserved, d) + rest
  {
    if ParseDest(s) == Ok((d, rest)) {
      ParsedIsRequest(s, d, rest);
    }
    if Readable(d) && exists command, reserved :: s == Request(command, reserved, d) + rest {
      var command, reserved :| s == Request(command, reserved, d) + rest;
      RequestParses(command, reserved, d, rest);
    }
  }

  // Which error it is: the version is looked at once three bytes are there and the type of the
  // address with the fourth; all else that is wrong is a stream that ends too soon.
  lemma WhichError(s: seq<byte>)
    ensures forall v :: ParseDest(s) == Err(BadVersion(v)) <==> 3 <= |s| && s[0] == v != 5
    ensures ParseDest(s) == Err(UnrecognizedAddrType) <==> 4 <= |s| && s[0] == 5 && s[3] !in {1, 3, 4}
    ensures ParseDest(s) == Err(UnexpectedEof) ==>
      |s| < 3 || (s[0] == 5 && exists more: seq<byte> :: ParseDest(s + more).Ok?)
  {
    if 3 <= |s| && ParseDest(s) == Err(UnexpectedEof) {
      CanBeCompleted(s);
    }
  }

  lemma CanBeCompleted(s: seq<byte>)
    requires 3 <= |s| && ParseDest(s) == Err(UnexpectedEof)
    ensures exists more: seq<byte> :: ParseDest(s + more).Ok?
  {
    var more := if |s| == 3 then [1] + Zeros(300) else Zeros(300);
    var t := (s + more)[3..];
    assert s + more == s[..3] + t;
    if |s| == 3 {
      assert t[0] == 1;
    } else {
      assert t[0] == s[3];
    }
    assert ParseDest(s + more).Ok?;
  }

  function Zeros(n: nat): (z: seq<byte>)
    ensures |z| == n
  {
    if n == 0 then [] else [0] + Zeros(n - 1)
  }
}
