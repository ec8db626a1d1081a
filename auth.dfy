/** Method negotiation, section 3 of RFC 1928: the client's VER, NMETHODS, METHODS message
    and the server's VER, METHOD answer (auth.go). */
module Auth {
  import opened Errors
  import opened Wire

  const MethodNoAuth: byte := 0x00
  const MethodGSSAPI: byte := 0x01
  const MethodPassword: byte := 0x02
  const MethodNoAcceptable: byte := 0xff

  datatype ClientAuthMessage = ClientAuthMessage(version: byte, nmethod: byte, methods: seq<byte>)

  /** The bytes a client sends for message `m`. */
  function EncodeClientAuth(m: ClientAuthMessage): seq<byte> {
    [m.version, m.nmethod] + m.methods
  }

  /** What NewClientAuthMessage makes of the unread bytes `s`: the message and how much of
      `s` it took, or the error it stopped at. */
  function DecodeClientAuth(s: seq<byte>): (d: Decoded<ClientAuthMessage>)
    ensures d.consumed <= |s|
    ensures d.result.Ok? ==>
      var m := d.result.value;
      && m.version == SOCKS5_VER
      && |m.methods| == m.nmethod
      && d.consumed == 2 + m.nmethod as int
      && s[..d.consumed] == EncodeClientAuth(m)
  {
    var header := ReadFullOf(s, 2);
    if header.result.Err? then Decoded(Err(header.result.error), header.consumed)
    else if s[0] != SOCKS5_VER then Decoded(Err(AuthVerNotSupport), 2)
    else
      var nmethod := s[1];
      var body := ReadFullOf(s[2..], nmethod);
      if body.result.Err? then Decoded(Err(body.result.error), 2 + body.consumed)
      else
        assert s[..2 + nmethod as int] == [s[0], s[1]] + s[2..][..nmethod];
        Decoded(Ok(ClientAuthMessage(SOCKS5_VER, nmethod, body.result.value)), 2 + nmethod as int)
  }

  /** Every well-formed message decodes back to itself, reading exactly its own bytes. */
  lemma ClientAuthRoundTrip(m: ClientAuthMessage, rest: seq<byte>)
    requires m.version == SOCKS5_VER && |m.methods| == m.nmethod
    ensures DecodeClientAuth(EncodeClientAuth(m) + rest) == Decoded(Ok(m), 2 + m.nmethod as int)
  {
    var s := EncodeClientAuth(m) + rest;
    assert s[2..][..m.nmethod] == m.methods;
  }

  /** The outcome of decoding, case by case: too few header bytes, a wrong version (found
      before any method byte is read), too few method bytes, or the message. */
  lemma ClientAuthCases(s: seq<byte>)
    ensures |s| < 2 ==> DecodeClientAuth(s) == Decoded(Err(ShortReadError(|s|)), |s|)
    ensures 2 <= |s| && s[0] != SOCKS5_VER ==>
      DecodeClientAuth(s) == Decoded(Err(AuthVerNotSupport), 2)
    ensures 2 <= |s| < 2 + s[1] as int && s[0] == SOCKS5_VER ==>
      DecodeClientAuth(s) == Decoded(Err(ShortReadError(|s| - 2)), |s|)
    ensures 2 <= |s| && 2 + s[1] as int <= |s| && s[0] == SOCKS5_VER ==>
      DecodeClientAuth(s) == Decoded(Ok(ClientAuthMessage(SOCKS5_VER, s[1], s[2..2 + s[1] as int])), 2 + s[1] as int)
  {
  }

  lemma ClientAuthExamples()
    ensures DecodeClientAuth([SOCKS5_VER, 2, MethodNoAuth, MethodGSSAPI])
      == Decoded(Ok(ClientAuthMessage(SOCKS5_VER, 2, [MethodNoAuth, MethodGSSAPI])), 4)
    ensures DecodeClientAuth([SOCKS5_VER, 2, MethodNoAuth]) == Decoded(Err(UnexpectedEOF), 3)
  {
    var offer := [SOCKS5_VER, 2, MethodNoAuth, MethodGSSAPI];
    ClientAuthCases(offer);
    assert offer[2..4] == [MethodNoAuth, MethodGSSAPI];
    ClientAuthCases([SOCKS5_VER, 2, MethodNoAuth]);
  }

  /** NewClientAuthMessage(conn): two io.ReadFull calls into freshly allocated buffers. */
  method NewClientAuthMessage(r: Reader) returns (res: Result<ClientAuthMessage>)
    requires r.Valid()
    modifies r
    ensures r.Valid()
    ensures var d := DecodeClientAuth(old(r.Unread()));
      res == d.result && r.pos == old(r.pos) + d.consumed
  {
    ghost var s := r.Unread();
    var buf := new byte[2];
    var err := r.ReadFull(buf, 2);
    if err.Some? {
      return Err(err.value);
    }
    assert buf[..] == s[..2];
    if buf[0] != SOCKS5_VER {
      return Err(AuthVerNotSupport);
    }
    var nmethod := buf[1];
    assert r.Unread() == s[2..];
    buf := new byte[nmethod];
    err := r.ReadFull(buf, nmethod);
    if err.Some? {
      return Err(err.value);
    }
    assert buf[..] == s[2..][..nmethod];
    return Ok(ClientAuthMessage(SOCKS5_VER, nmethod, buf[..]));
  }

  /** The server's answer selecting `method`. */
  function ServerAuthMessage(selected: byte): seq<byte> {
    [SOCKS5_VER, selected]
  }

  /** NewServerAuthMessage(conn, method): writes VER, METHOD for every method byte, 0x00 and 0xff included. */
  method NewServerAuthMessage(w: Writer, selected: byte) returns (err: Option<Error>)
    modifies w
    ensures w.output == old(w.output) + Sent(old(w.okWrites), ServerAuthMessage(selected))
    ensures w.okWrites == After(old(w.okWrites))
    ensures err == WriteError(old(w.okWrites))
  {
    var buf := [SOCKS5_VER, selected];
    err := w.Write(buf);
  }
}
