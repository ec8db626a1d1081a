/** The connection request and the server's reply, sections 4, 5 and 6 of RFC 1928
    (request.go). */
module Request {
  import opened Errors
  import opened Wire
  import opened IPText

  const CmdConnect: byte := 0x01
  const CmdBind: byte := 0x02
  const CmdUDP: byte := 0x03

  const ATypIPv4: byte := 0x01
  const ATypDomain: byte := 0x03
  const ATypIPv6: byte := 0x04

  const LenPort := 2
  const LenIPv4 := 4
  const LenIPv6 := 16

  const LenReplyHeader := 4

  const RepSuccess: byte := 0x00
  const RepServerFailure: byte := 0x01
  const RepConnectionNotAllowed: byte := 0x02
  const RepNetworkUnreachable: byte := 0x03
  const RepHostUnreachable: byte := 0x04
  const RepConnectionRefused: byte := 0x05
  const RepTTLExpired: byte := 0x06
  const RepCommandNotSupported: byte := 0x07
  const RepAddressTypeNotSupported: byte := 0x08

  /** The decoded request; `addr` is the text of DST.ADDR, `port` is DST.PORT in host order. */
  datatype ClientRequestMessage = ClientRequestMessage(cmd: byte, addrType: byte, addr: string, port: uint16)

  /** The text net.IP.String gives a 16-byte address (Go's IPv6 printer is not modelled). */
  type IPv6Printer = seq<byte> -> string

  predicate KnownAddrType(atyp: byte) {
    atyp == ATypIPv4 || atyp == ATypDomain || atyp == ATypIPv6
  }

  /** DST.ADDR as it stands on the wire. */
  datatype DstAddr = IPv4Addr(ip: seq<byte>) | DomainAddr(name: seq<byte>) | IPv6Addr(ip: seq<byte>)

  predicate WellFormed(a: DstAddr) {
    match a
    case IPv4Addr(ip) => |ip| == LenIPv4
    case DomainAddr(name) => |name| < 0x100
    case IPv6Addr(ip) => |ip| == LenIPv6
  }

  function AddrTypeOf(a: DstAddr): byte {
    match a
    case IPv4Addr(_) => ATypIPv4
    case DomainAddr(_) => ATypDomain
    case IPv6Addr(_) => ATypIPv6
  }

  function AddrWire(a: DstAddr): seq<byte>
    requires WellFormed(a)
  {
    match a
    case IPv4Addr(ip) => ip
    case DomainAddr(name) => [|name|] + name
    case IPv6Addr(ip) => ip
  }

  /** The text the server gives the destination. */
  function AddrText(a: DstAddr, render6: IPv6Printer): string {
    match a
    case IPv4Addr(ip) => IPString(ip, render6)
    case DomainAddr(name) => BytesToString(name)
    case IPv6Addr(ip) => IPString(ip, render6)
  }

  /** The bytes a client sends to ask for command `cmd` to destination `a`, port `port`. */
  function EncodeRequest(cmd: byte, a: DstAddr, port: uint16): seq<byte>
    requires WellFormed(a)
  {
    [SOCKS5_VER, cmd, RSV, AddrTypeOf(a)] + AddrWire(a) + PortBytes(port)
  }

  /** Whether `s` holds all of a DST.ADDR of type `atyp`. */
  predicate AddrFits(atyp: byte, s: seq<byte>) {
    if atyp == ATypDomain then 1 <= |s| && 1 + s[0] as int <= |s|
    else if atyp == ATypIPv6 then LenIPv6 <= |s|
    else LenIPv4 <= |s|
  }

  /** The DST.ADDR of type `atyp` at the front of `s`. */
  function DstAddrAt(atyp: byte, s: seq<byte>): (a: DstAddr)
    requires AddrFits(atyp, s)
    ensures WellFormed(a)
  {
    if atyp == ATypDomain then DomainAddr(s[1..1 + s[0] as int])
    else if atyp == ATypIPv6 then IPv6Addr(s[..LenIPv6])
    else IPv4Addr(s[..LenIPv4])
  }

  /** The DST.ADDR part of NewClientRequestMessage, on the bytes after the header. */
  function DecodeAddr(atyp: byte, s: seq<byte>, render6: IPv6Printer): (d: Decoded<string>)
    ensures d.consumed <= |s|
  {
    if atyp == ATypDomain then
      var lenByte := ReadFullOf(s, 1);
      if lenByte.result.Err? then Decoded(Err(lenByte.result.error), lenByte.consumed)
      else
        var domainLen := s[0];
        var name := ReadFullOf(s[1..], domainLen);
        if name.result.Err? then Decoded(Err(name.result.error), 1 + name.consumed)
        else Decoded(Ok(BytesToString(name.result.value)), 1 + domainLen as int)
    else
      var raw := ReadFullOf(s, if atyp == ATypIPv6 then LenIPv6 else LenIPv4);
      if raw.result.Err? then Decoded(Err(raw.result.error), raw.consumed)
      else Decoded(Ok(IPString(raw.result.value, render6)), raw.consumed)
  }

  /** What NewClientRequestMessage makes of the unread bytes `s`: the header is checked in
      the order version, command, reserved byte, address type, then DST.ADDR and DST.PORT
      are read. */
  function DecodeRequest(s: seq<byte>, render6: IPv6Printer): (d: Decoded<ClientRequestMessage>)
    ensures d.consumed <= |s|
    ensures d.result.Ok? ==>
      var m := d.result.value;
      && 4 <= |s| && s[0] == SOCKS5_VER && s[2] == RSV
      && m.cmd == s[1] && m.cmd <= CmdUDP
      && m.addrType == s[3] && KnownAddrType(m.addrType)
  {
    var header := ReadFullOf(s, 4);
    if header.result.Err? then Decoded(Err(header.result.error), header.consumed)
    else if s[0] != SOCKS5_VER then Decoded(Err(VerNotSupport), 4)
    else if s[1] > CmdUDP then Decoded(Err(CmdNotSupport), 4)
    else if s[2] != RSV then Decoded(Err(InvalidField), 4)
    else if !KnownAddrType(s[3]) then Decoded(Err(AtypNotSupport), 4)
    else
      var addr := DecodeAddr(s[3], s[4..], render6);
      if addr.result.Err? then Decoded(Err(addr.result.error), 4 + addr.consumed)
      else
        var port := ReadFullOf(s[4 + addr.consumed..], LenPort);
        if port.result.Err? then Decoded(Err(port.result.error), 4 + addr.consumed + port.consumed)
        else
          var p := port.result.value;
          Decoded(Ok(ClientRequestMessage(s[1], s[3], addr.result.value, PortOf(p[0], p[1]))),
                  4 + addr.consumed + LenPort)
  }

  /** The header checks run in a fixed order and the first that fails decides the error;
      a failed check consumes the 4 header bytes and nothing more. */
  lemma HeaderCheckOrder(s: seq<byte>, render6: IPv6Printer)
    requires 4 <= |s|
    ensures s[0] != SOCKS5_VER ==> DecodeRequest(s, render6) == Decoded(Err(VerNotSupport), 4)
    ensures s[0] == SOCKS5_VER && s[1] > CmdUDP ==>
      DecodeRequest(s, render6) == Decoded(Err(CmdNotSupport), 4)
    ensures s[0] == SOCKS5_VER && s[1] <= CmdUDP && s[2] != RSV ==>
      DecodeRequest(s, render6) == Decoded(Err(InvalidField), 4)
    ensures s[0] == SOCKS5_VER && s[1] <= CmdUDP && s[2] == RSV && !KnownAddrType(s[3]) ==>
      DecodeRequest(s, render6) == Decoded(Err(AtypNotSupport), 4)
  {
  }

  /** Every request a client can send decodes to its command, address type, address text and
      port, reading exactly its own bytes: 4 + 4 + 2 for IPv4, 4 + 16 + 2 for IPv6 and
      4 + 1 + L + 2 for a domain of L bytes. Command 0 passes the decoder too. */
  lemma RequestRoundTrip(cmd: byte, a: DstAddr, port: uint16, rest: seq<byte>, render6: IPv6Printer)
    requires cmd <= CmdUDP && WellFormed(a)
    ensures var e := EncodeRequest(cmd, a, port);
      DecodeRequest(e + rest, render6)
        == Decoded(Ok(ClientRequestMessage(cmd, AddrTypeOf(a), AddrText(a, render6), port)), |e|)
  {
    var w := AddrWire(a);
    var s := EncodeRequest(cmd, a, port) + rest;
    assert s[..4] == [SOCKS5_VER, cmd, RSV, AddrTypeOf(a)];
    assert s[4..] == w + (PortBytes(port) + rest);
    AddrRoundTrip(a, PortBytes(port) + rest, render6);
    assert s[4 + |w|..] == PortBytes(port) + rest;
    assert s[4 + |w|..][..LenPort] == PortBytes(port);
    PortBytesRoundTrip(port);
  }

  /** A DST.ADDR decodes to its text and consumes exactly its own bytes, whatever follows. */
  lemma AddrRoundTrip(a: DstAddr, tail: seq<byte>, render6: IPv6Printer)
    requires WellFormed(a)
    ensures DecodeAddr(AddrTypeOf(a), AddrWire(a) + tail, render6)
      == Decoded(Ok(AddrText(a, render6)), |AddrWire(a)|)
  {
    var t := AddrWire(a) + tail;
    match a
    case IPv4Addr(ip) =>
      assert t[..LenIPv4] == ip;
    case IPv6Addr(ip) =>
      assert t[..LenIPv6] == ip;
    case DomainAddr(name) =>
      assert t[1..][..|name|] == name;
  }

  /** A DST.ADDR that decodes is the wire form of the destination it names. */
  lemma DecodedAddrIsWire(atyp: byte, t: seq<byte>, render6: IPv6Printer)
    requires KnownAddrType(atyp) && DecodeAddr(atyp, t, render6).result.Ok?
    ensures AddrFits(atyp, t)
    ensures var a := DstAddrAt(atyp, t);
      var d := DecodeAddr(atyp, t, render6);
      && AddrTypeOf(a) == atyp
      && t[..d.consumed] == AddrWire(a)
      && d.result.value == AddrText(a, render6)
  {
    if atyp == ATypDomain {
      assert t[..1 + t[0] as int] == [t[0]] + t[1..][..t[0]];
    }
  }

  /** A request that decodes is the encoding of the destination it names. */
  lemma DecodedIsEncoding(s: seq<byte>, render6: IPv6Printer)
    requires DecodeRequest(s, render6).result.Ok?
    ensures var d := DecodeRequest(s, render6);
      var m := d.result.value;
      && AddrFits(m.addrType, s[4..])
      && var a := DstAddrAt(m.addrType, s[4..]);
      && s[..d.consumed] == EncodeRequest(m.cmd, a, m.port)
      && m == ClientRequestMessage(m.cmd, AddrTypeOf(a), AddrText(a, render6), m.port)
  {
    var d := DecodeRequest(s, render6);
    var m := d.result.value;
    var t := s[4..];
    var n := DecodeAddr(s[3], t, render6).consumed;
    DecodedAddrIsWire(s[3], t, render6);
    var a := DstAddrAt(m.addrType, t);
    var p := s[4 + n..][..LenPort];
    PortOfRoundTrip(p[0], p[1]);
    assert PortBytes(m.port) == p;
    assert d.consumed == 4 + n + LenPort;
    assert s[..4 + n] == s[..4] + t[..n];
    assert s[..d.consumed] == s[..4 + n] + p;
  }

  /** Bytes after a complete request are never looked at. */
  lemma ExtraBytesIgnored(s: seq<byte>, extra: seq<byte>, render6: IPv6Printer)
    requires DecodeRequest(s, render6).result.Ok?
    ensures DecodeRequest(s + extra, render6) == DecodeRequest(s, render6)
  {
    var d := DecodeRequest(s, render6);
    var m := d.result.value;
    DecodedIsEncoding(s, render6);
    var a := DstAddrAt(m.addrType, s[4..]);
    var e := EncodeRequest(m.cmd, a, m.port);
    assert s == e + s[d.consumed..];
    assert s + extra == e + (s[d.consumed..] + extra);
    RequestRoundTrip(m.cmd, a, m.port, s[d.consumed..], render6);
    RequestRoundTrip(m.cmd, a, m.port, s[d.consumed..] + extra, render6);
  }

  /** A request cut short anywhere, in its header, its address or its port, fails to decode
      after consuming everything there was. */
  lemma TruncatedRequestFails(s: seq<byte>, k: nat, render6: IPv6Printer)
    requires DecodeRequest(s, render6).result.Ok? && k < DecodeRequest(s, render6).consumed
    ensures DecodeRequest(s[..k], render6).result.Err?
    ensures DecodeRequest(s[..k], render6).consumed == k
  {
    var t := s[..k];
    if 4 <= k {
      assert t[..4] == s[..4];
      assert t[4..] == s[4..k];
      var n := DecodeAddr(s[3], s[4..], render6).consumed;
      if s[3] == ATypDomain {
        if 5 <= k {
          assert t[4..][1..] == s[4..][1..][..k - 5];
        }
      }
      if 4 + n <= k {
        assert DecodeAddr(s[3], t[4..], render6) == DecodeAddr(s[3], s[4..], render6) by {
          if s[3] == ATypDomain {
            assert t[4..][1..][..s[4]] == s[4..][1..][..s[4]];
          } else if s[3] == ATypIPv6 {
            assert t[4..][..LenIPv6] == s[4..][..LenIPv6];
          } else {
            assert t[4..][..LenIPv4] == s[4..][..LenIPv4];
          }
        }
      }
    }
  }

  /** The example of the package's tests: CONNECT to 123.35.13.89:80, and the same request with
      the unknown command 0x0a. */
  lemma RequestExamples(render6: IPv6Printer)
    ensures DecodeRequest([SOCKS5_VER, CmdConnect, RSV, ATypIPv4, 123, 35, 13, 89, 0x00, 0x50], render6)
      == Decoded(Ok(ClientRequestMessage(CmdConnect, ATypIPv4, "123.35.13.89", 80)), 10)
    ensures DecodeRequest([SOCKS5_VER, 0x0a, RSV, ATypIPv4, 123, 35, 13, 89, 0x00, 0x50], render6)
      == Decoded(Err(CmdNotSupport), 4)
  {
    var ip := [123, 35, 13, 89];
    assert [SOCKS5_VER, CmdConnect, RSV, ATypIPv4, 123, 35, 13, 89, 0x00, 0x50]
      == EncodeRequest(CmdConnect, IPv4Addr(ip), 80) + [];
    RequestRoundTrip(CmdConnect, IPv4Addr(ip), 80, [], render6);
    DottedQuadExample();
  }

  /** NewClientRequestMessage(conn): reads the header into a 4-byte buffer, then reads DST.ADDR
      into the same buffer, a fresh 16-byte one for IPv6, or a fresh one of the domain's length
      when that is over 4, and finally DST.PORT into the front of whichever buffer is current. */
  method NewClientRequestMessage(r: Reader, render6: IPv6Printer) returns (res: Result<ClientRequestMessage>)
    requires r.Valid()
    modifies r
    ensures r.Valid()
    ensures var d := DecodeRequest(old(r.Unread()), render6);
      res == d.result && r.pos == old(r.pos) + d.consumed
  {
    ghost var s := r.Unread();
    var buf := new byte[4];
    var err := r.ReadFull(buf, 4);
    if err.Some? {
      return Err(err.value);
    }
    assert buf[..] == s[..4];
    var ver, cmd, rsv, atyp := buf[0], buf[1], buf[2], buf[3];
    if ver != SOCKS5_VER {
      return Err(VerNotSupport);
    }
    if cmd > CmdUDP {
      return Err(CmdNotSupport);
    }
    if rsv != RSV {
      return Err(InvalidField);
    }
    if atyp != ATypIPv4 && atyp != ATypDomain && atyp != ATypIPv6 {
      return Err(AtypNotSupport);
    }
    ghost var t := s[4..];
    var addr;
    buf, addr := ReadDstAddr(r, buf, atyp, render6);
    if addr.Err? {
      return Err(addr.error);
    }
    ghost var n := DecodeAddr(atyp, t, render6).consumed;
    assert r.Unread() == s[4 + n..];
    // DST.PORT
    err := r.ReadFull(buf, LenPort);
    if err.Some? {
      return Err(err.value);
    }
    assert buf[..LenPort] == s[4 + n..][..LenPort];
    var port := PortOf(buf[0], buf[1]);
    return Ok(ClientRequestMessage(cmd, atyp, addr.value, port));
  }

  /** The DST.ADDR step of NewClientRequestMessage, given its 4-byte header buffer: the
      IPv6 case allocates a 16-byte buffer and falls through to the IPv4 case; a domain's
      length byte goes into the buffer, which is reused unless the domain is longer than 4.
      Returns the buffer now in use, which the port is read into. */
  method ReadDstAddr(r: Reader, buf: array<byte>, atyp: byte, render6: IPv6Printer)
    returns (cur: array<byte>, res: Result<string>)
    requires r.Valid() && buf.Length == LenIPv4 && KnownAddrType(atyp)
    modifies r, buf
    ensures r.Valid() && LenPort <= cur.Length && (cur == buf || fresh(cur))
    ensures var d := DecodeAddr(atyp, old(r.Unread()), render6);
      res == d.result && r.pos == old(r.pos) + d.consumed
  {
    ghost var t := r.Unread();
    cur := buf;
    var err;
    if atyp == ATypIPv6 || atyp == ATypIPv4 {
      if atyp == ATypIPv6 {
        cur := new byte[LenIPv6];
      }
      err := r.ReadFull(cur, cur.Length);
      if err.Some? {
        return cur, Err(err.value);
      }
      assert cur[..] == t[..cur.Length];
      res := Ok(IPString(cur[..], render6));
    } else {
      err := r.ReadFull(cur, 1);
      if err.Some? {
        return cur, Err(err.value);
      }
      var domainLen := cur[0];
      assert domainLen == t[0];
      assert r.Unread() == t[1..];
      if domainLen > LenIPv4 {
        cur := new byte[domainLen];
      }
      err := r.ReadFull(cur, domainLen);
      if err.Some? {
        return cur, Err(err.value);
      }
      assert cur[..domainLen] == t[1..][..domainLen];
      res := Ok(BytesToString(cur[..domainLen]));
    }
  }

  /** The success reply: VER, REP = 0, RSV, ATYP, BND.ADDR, BND.PORT. */
  function SuccessReply(bndAddr: seq<byte>, bndPort: uint16): (r: seq<byte>)
    ensures |r| == LenReplyHeader + |bndAddr| + 2 && r[0] == SOCKS5_VER && r[1] == RepSuccess
  {
    var addrType := if |bndAddr| == LenIPv6 then ATypIPv6 else ATypIPv4;
    [SOCKS5_VER, RepSuccess, RSV, addrType] + bndAddr + PortBytes(bndPort)
  }

  /** The success reply is 6 bytes longer than the bound address; its ATYP says IPv6 exactly
      when the address has 16 bytes and IPv4 otherwise; the address follows the header
      unchanged and the last two bytes read back as the port. */
  lemma SuccessReplyLayout(bndAddr: seq<byte>, bndPort: uint16)
    ensures var r := SuccessReply(bndAddr, bndPort);
      && |r| == 6 + |bndAddr|
      && r[..4] == [SOCKS5_VER, RepSuccess, RSV, if |bndAddr| == LenIPv6 then ATypIPv6 else ATypIPv4]
      && r[4..4 + |bndAddr|] == bndAddr
      && PortOf(r[|r| - 2], r[|r| - 1]) == bndPort
  {
    var r := SuccessReply(bndAddr, bndPort);
    assert r[4..4 + |bndAddr|] == bndAddr;
    PortBytesRoundTrip(bndPort);
  }

  /** The failure reply: always 10 bytes, the reply code and an all-zero IPv4 address and port. */
  function FailureReply(replyType: byte): (r: seq<byte>)
    ensures |r| == 10 && r[0] == SOCKS5_VER && r[1] == replyType
    ensures forall i :: 4 <= i < 10 ==> r[i] == 0
  {
    [SOCKS5_VER, replyType, RSV, ATypIPv4, 0, 0, 0, 0, 0, 0]
  }

  /** WriteRequestSuccessMessage(conn, bndAddr, bndPort): builds the reply by appending to a
      buffer and writes it in one call. */
  method WriteRequestSuccessMessage(w: Writer, bndAddr: seq<byte>, bndPort: uint16) returns (err: Option<Error>)
    modifies w
    ensures w.output == old(w.output) + Sent(old(w.okWrites), SuccessReply(bndAddr, bndPort))
    ensures w.okWrites == After(old(w.okWrites))
    ensures err == WriteError(old(w.okWrites))
  {
    var addrType := ATypIPv4;
    if |bndAddr| == LenIPv6 {
      addrType := ATypIPv6;
    }
    var buf: seq<byte> := [];
    buf := buf + [SOCKS5_VER, RepSuccess, RSV, addrType];
    buf := buf + bndAddr;
    buf := buf + [bndPort / 0x100, bndPort % 0x100];
    err := w.Write(buf);
  }

  /** WriteRequestFailureMessage(conn, replyType) */
  method WriteRequestFailureMessage(w: Writer, replyType: byte) returns (err: Option<Error>)
    modifies w
    ensures w.output == old(w.output) + Sent(old(w.okWrites), FailureReply(replyType))
    ensures w.okWrites == After(old(w.okWrites))
    ensures err == WriteError(old(w.okWrites))
  {
    err := w.Write([SOCKS5_VER, replyType, RSV, ATypIPv4, 0, 0, 0, 0, 0, 0]);
  }

  /** A success reply for a 4- or 16-byte address has the layout of a request: read back by
      the request decoder it gives the same address type, address text and port (with the
      reply code 0 in the command position). */
  lemma SuccessReplyDecodes(bndAddr: seq<byte>, bndPort: uint16, rest: seq<byte>, render6: IPv6Printer)
    requires |bndAddr| == LenIPv4 || |bndAddr| == LenIPv6
    ensures var a := if |bndAddr| == LenIPv4 then IPv4Addr(bndAddr) else IPv6Addr(bndAddr);
      DecodeRequest(SuccessReply(bndAddr, bndPort) + rest, render6)
        == Decoded(Ok(ClientRequestMessage(RepSuccess, AddrTypeOf(a), IPString(bndAddr, render6), bndPort)),
                   6 + |bndAddr|)
  {
    var a := if |bndAddr| == LenIPv4 then IPv4Addr(bndAddr) else IPv6Addr(bndAddr);
    assert SuccessReply(bndAddr, bndPort) == EncodeRequest(RepSuccess, a, bndPort);
    RequestRoundTrip(RepSuccess, a, bndPort, rest, render6);
  }

  /** A failure reply is the success reply for 0.0.0.0 port 0 with its reply code replaced:
      10 bytes whatever address type the request named. */
  lemma FailureReplyLayout(replyType: byte)
    ensures |FailureReply(replyType)| == 10
    ensures FailureReply(replyType) == SuccessReply([0, 0, 0, 0], 0)[1 := replyType]
  {
    var zero: seq<byte> := [0, 0, 0, 0];
    assert PortBytes(0) == [0, 0];
    assert SuccessReply(zero, 0) == [SOCKS5_VER, RepSuccess, RSV, ATypIPv4] + zero + [0, 0];
  }

  /** The reply of the package's test: bound address 123.123.11.22, port 0x0439. */
  lemma SuccessReplyExample()
    ensures SuccessReply([123, 123, 11, 22], 0x0439) == [SOCKS5_VER, RepSuccess, RSV, ATypIPv4, 123, 123, 11, 22, 0x04, 0x39]
  {
  }
}
