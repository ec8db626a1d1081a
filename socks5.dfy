/** The server side of one connection (socks5.go): configuration check, method negotiation
    with the optional username/password check, and the request with its reply. */
module Socks5 {
  import opened Errors
  import opened Wire
  import opened IPText
  import opened Auth
  import opened Request

  /** The credential check the application supplies: (username, password) -> accepted. */
  type PasswordChecker = (string, string) -> bool

  /** time.Second, in nanoseconds. */
  const Second: int := 1_000_000_000

  /** AuthMethod, PwdChecker (nil is None) and TCPTimeout (nanoseconds) of a Config. */
  datatype Config = Config(authMethod: byte, pwdChecker: Option<PasswordChecker>, tcpTimeout: int)

  const DefaultConfig: Config := Config(MethodNoAuth, None, 5 * Second)

  /** What initConfig accepts: Password needs a checker. */
  predicate ConfigValid(c: Config) {
    c.authMethod == MethodPassword ==> c.pwdChecker.Some?
  }

  /** What the username/password sub-negotiation decoder gives the server. */
  datatype Credentials = Credentials(username: string, password: string)

  /** The username/password sub-negotiation (NewClientPasswordMessage and the status message of
      WriteServerPasswordMessage), whose wire layout is not part of this model: `decode` is what
      the decoder makes of the unread bytes, `status(true)` and `status(false)` are the bytes of
      the success and the failure status. */
  datatype PasswordCodec = PasswordCodec(decode: seq<byte> -> Decoded<Credentials>, status: bool -> seq<byte>) {
    /** A decoder never takes more bytes than there are. */
    ghost predicate Valid() {
      forall s :: decode(s).consumed <= |s|
    }
  }

  /** How a handshake step went: the error it returned (None for nil), how many input bytes it
      consumed, the bytes it wrote and how many writes still go through after it. */
  datatype Trace = Trace(err: Option<Error>, consumed: nat, output: seq<byte>, left: nat)

  /** The part of a step after decoding: its error, what it wrote and the writes left. */
  datatype Answer = Answer(err: Option<Error>, output: seq<byte>, left: nat)

  /** The outcome the network gives a dial: the local address and port of the new connection,
      or an error. */
  datatype DialOutcome = Dialed(localIP: seq<byte>, localPort: uint16) | DialFailed(error: Error)

  /** net.DialTimeout("tcp", address, timeout), as a function of its arguments. */
  type Dialer = (string, int) -> DialOutcome

  /** The "host:port" string handleTCPRequest dials, as fmt.Sprintf("%s:%d", addr, port). */
  function DialAddress(m: ClientRequestMessage): (r: string)
    ensures |r| > |m.addr| + 1 && r[..|m.addr|] == m.addr && r[|m.addr|] == ':'
    ensures AllDigits(r[|m.addr| + 1..]) && DecimalValue(r[|m.addr| + 1..]) == m.port
  {
    DecimalRoundTrip(m.port);
    var r := m.addr + ":" + Decimal(m.port);
    assert r[|m.addr| + 1..] == Decimal(m.port);
    r
  }

  /** The username/password step of auth on the unread bytes `s` when `ok` more writes go
      through: the credentials are read, then the failure status is written and
      PasswordAuthFailure returned, or the success status is written and the write's error
      returned. */
  function PasswordTrace(checker: PasswordChecker, pw: PasswordCodec, s: seq<byte>, ok: nat): (t: Trace)
    requires pw.Valid()
    ensures t.consumed <= |s| && t.left <= ok
    ensures ok == 0 ==> t.output == []
  {
    var pm := pw.decode(s);
    if pm.result.Err? then Trace(Some(pm.result.error), pm.consumed, [], ok)
    else if !checker(pm.result.value.username, pm.result.value.password) then
      Trace(Some(PasswordAuthFailure), pm.consumed, Sent(ok, pw.status(false)), After(ok))
    else Trace(WriteError(ok), pm.consumed, Sent(ok, pw.status(true)), After(ok))
  }

  /** What auth(conn) does with the unread bytes `s` when `ok` more writes go through. */
  function AuthTrace(cfg: Config, pw: PasswordCodec, s: seq<byte>, ok: nat): (t: Trace)
    requires ConfigValid(cfg) && pw.Valid()
    ensures t.consumed <= |s| && t.left <= ok
    ensures ok == 0 ==> t.output == []
    ensures t.err.None? ==> 0 < ok && |t.output| >= 2 && t.output[..2] == ServerAuthMessage(cfg.authMethod)
  {
    var client := DecodeClientAuth(s);
    if client.result.Err? then Trace(Some(client.result.error), client.consumed, [], ok)
    else if cfg.authMethod !in client.result.value.methods then
      Trace(Some(MethodNotAcceptable), client.consumed, Sent(ok, ServerAuthMessage(MethodNoAcceptable)), After(ok))
    else if ok == 0 then Trace(Some(WriteFailed), client.consumed, [], 0)
    else
      var selection := ServerAuthMessage(cfg.authMethod);
      if cfg.authMethod != MethodPassword then Trace(None, client.consumed, selection, ok - 1)
      else
        var p := PasswordTrace(cfg.pwdChecker.value, pw, s[client.consumed..], ok - 1);
        Trace(p.err, client.consumed + p.consumed, selection + p.output, p.left)
  }

  /** What handleTCPRequest does once the request is decoded. */
  function TcpAnswer(cfg: Config, m: ClientRequestMessage, ok: nat, dial: Dialer, relay: Option<Error>): (a: Answer)
    ensures a.left <= ok && (ok == 0 ==> a.output == [])
    ensures a.err.None? ==> relay.None? && 0 < ok && |a.output| >= 2 && a.output[..2] == [SOCKS5_VER, RepSuccess]
  {
    match dial(DialAddress(m), cfg.tcpTimeout)
    case DialFailed(e) => Answer(Some(e), Sent(ok, FailureReply(RepConnectionRefused)), After(ok))
    case Dialed(ip, port) =>
      if ok == 0 then Answer(Some(WriteFailed), [], 0) else Answer(relay, SuccessReply(ip, port), ok - 1)
  }

  /** The choice request(conn) makes on a decoded request: IPv6 is refused first, then CONNECT
      is dialed, UDP ASSOCIATE is accepted without a reply and every other command is refused. */
  function RequestAnswer(cfg: Config, m: ClientRequestMessage, ok: nat, dial: Dialer, relay: Option<Error>): (a: Answer)
    ensures a.left <= ok && (ok == 0 ==> a.output == [])
    ensures a.err.None? ==> m.addrType != ATypIPv6 && (m.cmd == CmdUDP || (m.cmd == CmdConnect && relay.None?))
  {
    if m.addrType == ATypIPv6 then
      Answer(Some(AtypNotSupport), Sent(ok, FailureReply(RepAddressTypeNotSupported)), After(ok))
    else if m.cmd == CmdConnect then TcpAnswer(cfg, m, ok, dial, relay)
    else if m.cmd == CmdUDP then Answer(None, [], ok)
    else Answer(Some(CmdNotSupport), Sent(ok, FailureReply(RepCommandNotSupported)), After(ok))
  }

  /** What request(conn) does with the unread bytes `s`; `relay` is what the relay (forward)
      returns once it ends. */
  function RequestTrace(cfg: Config, s: seq<byte>, ok: nat, render6: IPv6Printer, dial: Dialer,
                        relay: Option<Error>): (t: Trace)
    ensures t.consumed <= |s| && t.left <= ok
    ensures ok == 0 ==> t.output == []
  {
    var d := DecodeRequest(s, render6);
    if d.result.Err? then Trace(Some(d.result.error), d.consumed, [], ok)
    else
      var a := RequestAnswer(cfg, d.result.value, ok, dial, relay);
      Trace(a.err, d.consumed, a.output, a.left)
  }

  /** What handleConnection(conn) does: auth, then request on the bytes and the writes auth
      left, unless auth failed. */
  function ConnectionTrace(cfg: Config, pw: PasswordCodec, s: seq<byte>, ok: nat, render6: IPv6Printer,
                           dial: Dialer, relay: Option<Error>): (t: Trace)
    requires ConfigValid(cfg) && pw.Valid()
    ensures t.consumed <= |s| && t.left <= ok
    ensures ok == 0 ==> t.output == []
  {
    var a := AuthTrace(cfg, pw, s, ok);
    if a.err.Some? then a
    else
      var q := RequestTrace(cfg, s[a.consumed..], a.left, render6, dial, relay);
      Trace(q.err, a.consumed + q.consumed, a.output + q.output, q.left)
  }

  /** A client message that fails to decode ends auth with the decoder's error, before
      anything is written. */
  lemma AuthDecodeFailure(cfg: Config, pw: PasswordCodec, s: seq<byte>, ok: nat)
    requires ConfigValid(cfg) && pw.Valid() && DecodeClientAuth(s).result.Err?
    ensures var d := DecodeClientAuth(s);
      AuthTrace(cfg, pw, s, ok) == Trace(Some(d.result.error), d.consumed, [], ok)
  {
  }

  /** When the configured method is among those offered, the first thing written is
      VER, METHOD with the configured method, whatever follows. */
  lemma AuthSelectsOffered(cfg: Config, pw: PasswordCodec, s: seq<byte>, ok: nat)
    requires ConfigValid(cfg) && pw.Valid() && 0 < ok
    requires DecodeClientAuth(s).result.Ok? && cfg.authMethod in DecodeClientAuth(s).result.value.methods
    ensures var t := AuthTrace(cfg, pw, s, ok);
      |t.output| >= 2 && t.output[..2] == [SOCKS5_VER, cfg.authMethod]
  {
  }

  /** When the configured method is not offered, auth writes VER, 0xff and nothing else and
      fails, having read nothing past the client's message; the password decoder and checker
      play no part (the outcome is the same with any others). */
  lemma AuthRejectsUnoffered(cfg: Config, pw: PasswordCodec, s: seq<byte>, ok: nat,
                             cfg': Config, pw': PasswordCodec)
    requires ConfigValid(cfg) && pw.Valid() && ConfigValid(cfg') && pw'.Valid()
    requires cfg'.authMethod == cfg.authMethod
    requires DecodeClientAuth(s).result.Ok? && cfg.authMethod !in DecodeClientAuth(s).result.value.methods
    ensures AuthTrace(cfg, pw, s, ok)
      == Trace(Some(MethodNotAcceptable), DecodeClientAuth(s).consumed,
               Sent(ok, [SOCKS5_VER, MethodNoAcceptable]), After(ok))
    ensures AuthTrace(cfg', pw', s, ok) == AuthTrace(cfg, pw, s, ok)
  {
  }

  /** With the Password method, once the selection is written, a rejected username/password
      gets the failure status and PasswordAuthFailure; an accepted one gets the success status,
      and auth returns what that write returns: nil, or its error when the connection has gone
      after the selection. */
  lemma AuthPasswordOutcome(cfg: Config, pw: PasswordCodec, s: seq<byte>, ok: nat)
    requires ConfigValid(cfg) && pw.Valid() && cfg.authMethod == MethodPassword && 0 < ok
    requires DecodeClientAuth(s).result.Ok? && MethodPassword in DecodeClientAuth(s).result.value.methods
    requires pw.decode(s[DecodeClientAuth(s).consumed..]).result.Ok?
    ensures var c := pw.decode(s[DecodeClientAuth(s).consumed..]).result.value;
      var accepted := cfg.pwdChecker.value(c.username, c.password);
      var t := AuthTrace(cfg, pw, s, ok);
      && t.output == [SOCKS5_VER, MethodPassword] + Sent(ok - 1, pw.status(accepted))
      && t.err == (if !accepted then Some(PasswordAuthFailure) else if ok == 1 then Some(WriteFailed) else None)
      && t.left == After(ok - 1)
      && t.consumed == DecodeClientAuth(s).consumed + pw.decode(s[DecodeClientAuth(s).consumed..]).consumed
  {
  }

  /** auth succeeds exactly when the client's message decodes, offers the configured method,
      the selection can be written, and, for Password, the credentials decode, are accepted
      and the success status can be written too. */
  lemma AuthSucceedsIff(cfg: Config, pw: PasswordCodec, s: seq<byte>, ok: nat)
    requires ConfigValid(cfg) && pw.Valid()
    ensures var d := DecodeClientAuth(s);
      AuthTrace(cfg, pw, s, ok).err.None? <==>
        && d.result.Ok? && cfg.authMethod in d.result.value.methods && 1 <= ok
        && (cfg.authMethod == MethodPassword ==>
              var p := pw.decode(s[d.consumed..]);
              && p.result.Ok? && cfg.pwdChecker.value(p.result.value.username, p.result.value.password)
              && 2 <= ok)
  {
  }

  /** The package's test: with NoAuth configured, the offer NoAuth, GSSAPI is answered with
      5, 0 and auth returns nil; a message announcing 2 methods and carrying 1 fails and writes
      nothing. */
  lemma AuthExamples(pw: PasswordCodec, ok: nat)
    requires pw.Valid() && 0 < ok
    ensures AuthTrace(DefaultConfig, pw, [SOCKS5_VER, 2, MethodNoAuth, MethodGSSAPI], ok)
      == Trace(None, 4, [SOCKS5_VER, MethodNoAuth], ok - 1)
    ensures AuthTrace(DefaultConfig, pw, [SOCKS5_VER, 2, MethodNoAuth], ok)
      == Trace(Some(UnexpectedEOF), 3, [], ok)
  {
    ClientAuthExamples();
  }

  /** An IPv6 destination is refused with reply code 8 and AtypNotSupport, whatever the
      command, before any dial. */
  lemma RequestRefusesIPv6(cfg: Config, s: seq<byte>, ok: nat, render6: IPv6Printer,
                           dial: Dialer, relay: Option<Error>)
    requires DecodeRequest(s, render6).result.Ok? && DecodeRequest(s, render6).result.value.addrType == ATypIPv6
    ensures RequestTrace(cfg, s, ok, render6, dial, relay)
      == Trace(Some(AtypNotSupport), DecodeRequest(s, render6).consumed,
               Sent(ok, FailureReply(RepAddressTypeNotSupported)), After(ok))
  {
  }

  /** After a successful decode of a non-IPv6 request: BIND and command 0 are refused with
      reply code 7 and CmdNotSupport; UDP ASSOCIATE returns nil and writes nothing; CONNECT
      dials "addr:port" with the configured timeout and, when that fails, sends reply code 5
      and returns the dial error; when it succeeds, sends the success reply for the local
      end of the new connection and returns what the relay returns, unless that reply cannot
      be written, when it returns the write's error without relaying. */
  lemma RequestDispatch(cfg: Config, s: seq<byte>, ok: nat, render6: IPv6Printer,
                        dial: Dialer, relay: Option<Error>)
    requires DecodeRequest(s, render6).result.Ok? && DecodeRequest(s, render6).result.value.addrType != ATypIPv6
    ensures var d := DecodeRequest(s, render6);
      var m := d.result.value;
      var t := RequestTrace(cfg, s, ok, render6, dial, relay);
      && t.consumed == d.consumed
      && (m.cmd == CmdBind || m.cmd == 0 ==>
            t.err == Some(CmdNotSupport) && t.output == Sent(ok, FailureReply(RepCommandNotSupported))
            && t.left == After(ok))
      && (m.cmd == CmdUDP ==> t.err == None && t.output == [] && t.left == ok)
      && (m.cmd == CmdConnect && dial(DialAddress(m), cfg.tcpTimeout).DialFailed? ==>
            t.err == Some(dial(DialAddress(m), cfg.tcpTimeout).error)
            && t.output == Sent(ok, FailureReply(RepConnectionRefused)) && t.left == After(ok))
      && (m.cmd == CmdConnect && dial(DialAddress(m), cfg.tcpTimeout).Dialed? && 0 < ok ==>
            var o := dial(DialAddress(m), cfg.tcpTimeout);
            t.err == relay && t.output == SuccessReply(o.localIP, o.localPort) && t.left == ok - 1)
      && (m.cmd == CmdConnect && dial(DialAddress(m), cfg.tcpTimeout).Dialed? && ok == 0 ==>
            t.err == Some(WriteFailed) && t.output == [])
  {
  }

  /** Only a decoded CONNECT to a non-IPv6 destination reaches the dial: for every other input
      the outcome is the same with any other dialer and relay. */
  lemma DialOnlyForConnect(cfg: Config, s: seq<byte>, ok: nat, render6: IPv6Printer,
                           dial: Dialer, relay: Option<Error>, dial': Dialer, relay': Option<Error>)
    requires var d := DecodeRequest(s, render6);
      !(d.result.Ok? && d.result.value.cmd == CmdConnect && d.result.value.addrType != ATypIPv6)
    ensures RequestTrace(cfg, s, ok, render6, dial', relay') == RequestTrace(cfg, s, ok, render6, dial, relay)
  {
  }

  /** A failed auth ends the connection: the request is never read. */
  lemma ConnectionStopsAfterFailedAuth(cfg: Config, pw: PasswordCodec, s: seq<byte>, ok: nat,
                                       render6: IPv6Printer, dial: Dialer, relay: Option<Error>)
    requires ConfigValid(cfg) && pw.Valid() && AuthTrace(cfg, pw, s, ok).err.Some?
    ensures ConnectionTrace(cfg, pw, s, ok, render6, dial, relay) == AuthTrace(cfg, pw, s, ok)
  {
  }

  /** After a successful auth the request is read from the bytes auth left, answered with the
      writes auth left, and its output follows auth's. */
  lemma ConnectionAfterAuth(cfg: Config, pw: PasswordCodec, s: seq<byte>, ok: nat,
                            render6: IPv6Printer, dial: Dialer, relay: Option<Error>)
    requires ConfigValid(cfg) && pw.Valid() && AuthTrace(cfg, pw, s, ok).err.None?
    ensures var a := AuthTrace(cfg, pw, s, ok);
      var q := RequestTrace(cfg, s[a.consumed..], a.left, render6, dial, relay);
      ConnectionTrace(cfg, pw, s, ok, render6, dial, relay)
        == Trace(q.err, a.consumed + q.consumed, a.output + q.output, q.left)
  {
  }

  /** With NoAuth configured, a client offering only NoAuth is answered 5, 0. */
  lemma NoAuthOfferAccepted(pw: PasswordCodec, rest: seq<byte>, ok: nat)
    requires pw.Valid() && 0 < ok
    ensures AuthTrace(DefaultConfig, pw, [SOCKS5_VER, 1, MethodNoAuth] + rest, ok)
      == Trace(None, 3, [SOCKS5_VER, MethodNoAuth], ok - 1)
  {
    var hello := ClientAuthMessage(SOCKS5_VER, 1, [MethodNoAuth]);
    ClientAuthRoundTrip(hello, rest);
    assert EncodeClientAuth(hello) == [SOCKS5_VER, 1, MethodNoAuth];
  }

  /** The request of the package's decoder test: CONNECT to 123.35.13.89, port 80. */
  const ExampleConnect: seq<byte> := [SOCKS5_VER, CmdConnect, RSV, ATypIPv4, 123, 35, 13, 89, 0x00, 0x50]

  /** The request to 123.35.13.89, port 80, is dialed as "123.35.13.89:80". */
  lemma DialAddressExample()
    ensures DialAddress(ClientRequestMessage(CmdConnect, ATypIPv4, "123.35.13.89", 80)) == "123.35.13.89:80"
  {
    assert Decimal(80) == "80" by {
      assert Decimal(8) == "8";
    }
  }

  /** CONNECT to 123.35.13.89:80 dials "123.35.13.89:80" and sends the success reply for the
      local end of the new connection, or fails with the write's error when it cannot. */
  lemma ConnectExampleAnswered(cfg: Config, render6: IPv6Printer, dial: Dialer, relay: Option<Error>,
                               localIP: seq<byte>, localPort: uint16, ok: nat)
    requires dial("123.35.13.89:80", cfg.tcpTimeout) == Dialed(localIP, localPort)
    ensures var t := RequestTrace(cfg, ExampleConnect, ok, render6, dial, relay);
      && (0 < ok ==> t == Trace(relay, 10, SuccessReply(localIP, localPort), ok - 1))
      && (ok == 0 ==> t == Trace(Some(WriteFailed), 10, [], 0))
  {
    RequestExamples(render6);
    var m := ClientRequestMessage(CmdConnect, ATypIPv4, "123.35.13.89", 80);
    DialAddressExample();
    assert RequestAnswer(cfg, m, ok, dial, relay) == TcpAnswer(cfg, m, ok, dial, relay);
  }

  /** The whole exchange for NoAuth and CONNECT to 123.35.13.89:80 on a connection that takes
      both writes: the server answers 5, 0, dials "123.35.13.89:80" and, given the local end of
      the new connection, sends the success reply for it and returns what the relay returns. */
  lemma ConnectionExample(pw: PasswordCodec, render6: IPv6Printer, dial: Dialer, relay: Option<Error>,
                          localIP: seq<byte>, localPort: uint16)
    requires pw.Valid() && dial("123.35.13.89:80", DefaultConfig.tcpTimeout) == Dialed(localIP, localPort)
    ensures ConnectionTrace(DefaultConfig, pw, [SOCKS5_VER, 1, MethodNoAuth] + ExampleConnect, 2, render6, dial, relay)
      == Trace(relay, 13, [SOCKS5_VER, MethodNoAuth] + SuccessReply(localIP, localPort), 0)
  {
    var req := ExampleConnect;
    var s := [SOCKS5_VER, 1, MethodNoAuth] + req;
    NoAuthOfferAccepted(pw, req, 2);
    assert s[3..] == req;
    ConnectExampleAnswered(DefaultConfig, render6, dial, relay, localIP, localPort, 1);
  }

  /** The same exchange on a connection that takes the first write and is gone by the second:
      auth succeeds, the dial is made, the success reply is lost and handleConnection returns
      the write's error without relaying. */
  lemma ConnectionExampleReplyLost(pw: PasswordCodec, render6: IPv6Printer, dial: Dialer, relay: Option<Error>,
                                   localIP: seq<byte>, localPort: uint16)
    requires pw.Valid() && dial("123.35.13.89:80", DefaultConfig.tcpTimeout) == Dialed(localIP, localPort)
    ensures ConnectionTrace(DefaultConfig, pw, [SOCKS5_VER, 1, MethodNoAuth] + ExampleConnect, 1, render6, dial, relay)
      == Trace(Some(WriteFailed), 13, [SOCKS5_VER, MethodNoAuth], 0)
  {
    var req := ExampleConnect;
    var s := [SOCKS5_VER, 1, MethodNoAuth] + req;
    NoAuthOfferAccepted(pw, req, 1);
    assert s[3..] == req;
    ConnectExampleAnswered(DefaultConfig, render6, dial, relay, localIP, localPort, 0);
    assert [SOCKS5_VER, MethodNoAuth] + [] == [SOCKS5_VER, MethodNoAuth];
  }

  /** The loop of auth that looks for the configured method among the offered ones. */
  method Offers(methods: seq<byte>, wanted: byte) returns (acceptable: bool)
    ensures acceptable <==> wanted in methods
  {
    acceptable := false;
    for i := 0 to |methods|
      invariant !acceptable
      invariant forall k :: 0 <= k < i ==> methods[k] != wanted
    {
      if methods[i] == wanted {
        acceptable := true;
        break;
      }
    }
  }

  /** NewClientPasswordMessage(conn) */
  method NewClientPasswordMessage(r: Reader, pw: PasswordCodec) returns (res: Result<Credentials>)
    requires r.Valid() && pw.Valid()
    modifies r
    ensures r.Valid()
    ensures var d := pw.decode(old(r.Unread()));
      res == d.result && r.pos == old(r.pos) + d.consumed
  {
    var d := pw.decode(r.Unread());
    r.Skip(d.consumed);
    res := d.result;
  }

  /** WriteServerPasswordMessage(conn, status) */
  method WriteServerPasswordMessage(w: Writer, pw: PasswordCodec, success: bool) returns (err: Option<Error>)
    modifies w
    ensures w.output == old(w.output) + Sent(old(w.okWrites), pw.status(success))
    ensures w.okWrites == After(old(w.okWrites))
    ensures err == WriteError(old(w.okWrites))
  {
    err := w.Write(pw.status(success));
  }

  /** S5Server; its listening address belongs to Run, which is not part of this model. */
  class S5Server {
    var config: Option<Config>

    constructor (config: Option<Config>)
      ensures this.config == config
    {
      this.config := config;
    }

    /** initConfig: a nil Config becomes DefaultConfig; Password without a checker is refused. */
    method InitConfig() returns (err: Option<Error>)
      modifies this
      ensures config.Some?
      ensures old(config).None? ==> config == Some(DefaultConfig)
      ensures old(config).Some? ==> config == old(config)
      ensures err == (if ConfigValid(config.value) then None else Some(PasswordCheckerNotSet))
    {
      if config.None? {
        config := Some(DefaultConfig);
      }
      if config.value.authMethod == MethodPassword && config.value.pwdChecker.None? {
        return Some(PasswordCheckerNotSet);
      }
      return None;
    }

    /** auth(conn), on the read half `r` and the write half `w` of the connection. */
    method Auth(r: Reader, w: Writer, pw: PasswordCodec) returns (err: Option<Error>)
      requires config.Some? && ConfigValid(config.value) && pw.Valid() && r.Valid()
      modifies r, w
      ensures r.Valid()
      ensures var t := AuthTrace(config.value, pw, old(r.Unread()), old(w.okWrites));
        && err == t.err && r.pos == old(r.pos) + t.consumed
        && w.output == old(w.output) + t.output && w.okWrites == t.left
    {
      ghost var s := r.Unread();
      var clientMessage := NewClientAuthMessage(r);
      if clientMessage.Err? {
        return Some(clientMessage.error);
      }
      var cfg := config.value;
      var acceptable := Offers(clientMessage.value.methods, cfg.authMethod);
      if !acceptable {
        var _ := NewServerAuthMessage(w, MethodNoAcceptable);
        return Some(MethodNotAcceptable);
      }
      err := NewServerAuthMessage(w, cfg.authMethod);
      if err.Some? {
        return err;
      }
      if cfg.authMethod == MethodPassword {
        assert r.Unread() == s[DecodeClientAuth(s).consumed..];
        err := PasswordCheck(r, w, pw, cfg.pwdChecker.value);
      }
    }

    /** The username/password part of auth(conn): reads the credentials, asks the checker and
        writes the status. */
    method PasswordCheck(r: Reader, w: Writer, pw: PasswordCodec, checker: PasswordChecker)
      returns (err: Option<Error>)
      requires pw.Valid() && r.Valid()
      modifies r, w
      ensures r.Valid()
      ensures var t := PasswordTrace(checker, pw, old(r.Unread()), old(w.okWrites));
        && err == t.err && r.pos == old(r.pos) + t.consumed
        && w.output == old(w.output) + t.output && w.okWrites == t.left
    {
      var passwordMessage := NewClientPasswordMessage(r, pw);
      if passwordMessage.Err? {
        return Some(passwordMessage.error);
      }
      if !checker(passwordMessage.value.username, passwordMessage.value.password) {
        var _ := WriteServerPasswordMessage(w, pw, false);
        return Some(PasswordAuthFailure);
      }
      err := WriteServerPasswordMessage(w, pw, true);
      if err.Some? {
        return err;
      }
      return None;
    }

    /** request(conn): decodes the request and answers it. */
    method Request(r: Reader, w: Writer, render6: IPv6Printer, dial: Dialer, relay: Option<Error>)
      returns (err: Option<Error>)
      requires config.Some? && r.Valid()
      modifies r, w
      ensures r.Valid()
      ensures var t := RequestTrace(config.value, old(r.Unread()), old(w.okWrites), render6, dial, relay);
        && err == t.err && r.pos == old(r.pos) + t.consumed
        && w.output == old(w.output) + t.output && w.okWrites == t.left
    {
      var message := NewClientRequestMessage(r, render6);
      if message.Err? {
        return Some(message.error);
      }
      var m := message.value;
      if m.addrType == ATypIPv6 {
        var _ := WriteRequestFailureMessage(w, RepAddressTypeNotSupported);
        return Some(AtypNotSupport);
      }
      if m.cmd == CmdConnect {
        err := HandleTCPRequest(w, m, dial, relay);
      } else if m.cmd == CmdUDP {
        err := HandleUDPRequest();
      } else {
        var _ := WriteRequestFailureMessage(w, RepCommandNotSupported);
        err := Some(CmdNotSupport);
      }
    }

    /** handleTCPRequest(conn, message): dials the destination; on failure sends the
        connection-refused reply, on success the reply with the local end of the new connection,
        then returns what the relay returns. */
    method HandleTCPRequest(w: Writer, m: ClientRequestMessage, dial: Dialer, relay: Option<Error>)
      returns (err: Option<Error>)
      requires config.Some?
      modifies w
      ensures var a := TcpAnswer(config.value, m, old(w.okWrites), dial, relay);
        err == a.err && w.output == old(w.output) + a.output && w.okWrites == a.left
    {
      var dstAddr := DialAddress(m);
      var dstConn := dial(dstAddr, config.value.tcpTimeout);
      if dstConn.DialFailed? {
        var _ := WriteRequestFailureMessage(w, RepConnectionRefused);
        return Some(dstConn.error);
      }
      err := WriteRequestSuccessMessage(w, dstConn.localIP, dstConn.localPort);
      if err.Some? {
        return err;
      }
      return relay;
    }

    /** handleUDPRequest: UDP ASSOCIATE is accepted and nothing is done. */
    method HandleUDPRequest() returns (err: Option<Error>)
      ensures err == None
    {
      return None;
    }

    /** handleConnection(conn) */
    method HandleConnection(r: Reader, w: Writer, pw: PasswordCodec, render6: IPv6Printer, dial: Dialer,
                            relay: Option<Error>) returns (err: Option<Error>)
      requires config.Some? && ConfigValid(config.value) && pw.Valid() && r.Valid()
      modifies r, w
      ensures r.Valid()
      ensures var t := ConnectionTrace(config.value, pw, old(r.Unread()), old(w.okWrites), render6, dial, relay);
        && err == t.err && r.pos == old(r.pos) + t.consumed
        && w.output == old(w.output) + t.output && w.okWrites == t.left
    {
      ghost var s := r.Unread();
      ghost var p := r.pos;
      ghost var out := w.output;
      ghost var ok := w.okWrites;
      ghost var cfg := config.value;
      ghost var t := ConnectionTrace(cfg, pw, s, ok, render6, dial, relay);
      ghost var a := AuthTrace(cfg, pw, s, ok);
      err := Auth(r, w, pw);
      if err.Some? {
        ConnectionStopsAfterFailedAuth(cfg, pw, s, ok, render6, dial, relay);
        assert err == t.err && r.pos == p + t.consumed && w.output == out + t.output && w.okWrites == t.left;
        return;
      }
      ghost var rest := r.Unread();
      assert rest == s[a.consumed..] && w.okWrites == a.left;
      ConnectionAfterAuth(cfg, pw, s, ok, render6, dial, relay);
      ghost var q := RequestTrace(cfg, rest, a.left, render6, dial, relay);
      err := Request(r, w, render6, dial, relay);
      assert w.output == (out + a.output) + q.output;
      AppendAssoc(out, a.output, q.output);
      assert r.pos == p + (a.consumed + q.consumed);
      assert err == t.err && r.pos == p + t.consumed && w.output == out + t.output && w.okWrites == t.left;
    }
  }
}
