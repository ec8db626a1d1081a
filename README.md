# gosocks5: the SOCKS5 codec and handshake, modelled in Dafny

This project models the server side of one SOCKS5 connection in the Go package `gosocks5`:

- the wire codec of RFC 1928: the client's method-selection message (section 3), the
  client's request (section 4) and the server's replies (sections 5 and 6);
- the per-connection handshake: `initConfig`, `auth` (method choice, `0xff` when the
  configured method is not offered, and the username/password check), and `request`
  (refusing IPv6, dispatching CONNECT, UDP ASSOCIATE and the other commands), in the
  order `handleConnection` runs them.

Layout, one module per file:

| file | module | what it holds |
|---|---|---|
| errors.dfy | `Errors` | the sentinel errors of errors.go, the errors that auth.go and socks5.go build with `errors.New`, the io errors, Go's nillable `error` as `Option` |
| wire.dfy | `Wire` | `byte`, `uint16`, `SOCKS5_VER`/`RSV`, the big-endian port, the `Reader` and `Writer` classes |
| iptext.dfy | `IPText` | the dotted-decimal text of a 4-byte address, Go's `string(bytes)` |
| auth.dfy | `Auth` | `NewClientAuthMessage`, `NewServerAuthMessage`, the method constants |
| request.dfy | `Request` | `NewClientRequestMessage`, `WriteRequestSuccessMessage`, `WriteRequestFailureMessage`, the command, address-type and reply constants |
| socks5.dfy | `Socks5` | `Config`, `S5Server` with `InitConfig`, `Auth`, `Request`, `HandleTCPRequest`, `HandleUDPRequest`, `HandleConnection` |

How the model is built:

- A connection has two halves. The `Reader` is a class holding the bytes the client sends
  and a cursor. `ReadFull(buf, n)` copies the next `n` bytes into an array, as `io.ReadFull`
  does. When fewer are left, it copies and consumes those and fails: `EOF` if none were
  left, `UnexpectedEOF` otherwise. A read of 0 bytes always succeeds.
- The `Writer` is an append-only sequence with a count, `okWrites`, of the writes that still
  go through before the peer goes. Each successful write uses one up. Once none are left,
  every write fails with `WriteFailed` and delivers nothing. A connection can therefore
  take the method selection and then lose the password status (socks5.go:142-145), or
  take the selection and lose the CONNECT reply (socks5.go:188-190). Every
  `if err != nil` branch after a write is reachable.
- The decoders are imperative methods over the `Reader`, written as the Go code is.
  `NewClientRequestMessage` reuses its 4-byte buffer, allocates a 16-byte one for IPv6
  (the `fallthrough` into the IPv4 case), and allocates a new one only for domains longer
  than 4 bytes.
- Each decoder's contract ties its result and the cursor to a specification function on
  the unread bytes (`DecodeClientAuth`, `DecodeRequest`). Each handshake method is tied the
  same way to a function returning a `Trace`: the returned error, the bytes consumed, the
  bytes written and the writes left (`AuthTrace`, `PasswordTrace`, `RequestTrace`,
  `ConnectionTrace`). The lemmas state the properties of those functions.
- What the model cannot see is passed in as parameters:
  - `render6`: the IPv6 text of `net.IP.String`;
  - `dial`: the outcome of `net.DialTimeout` together with the local address of the new
    connection;
  - `relay`: the error `forward` returns;
  - `PasswordCodec`: the username/password sub-negotiation decoder and its status bytes;
  - the configured `PasswordChecker`.

  "Never dials" and "never calls the checker" are then stated as: the outcome is the same
  for every other dialer, checker or password decoder.

Behaviour worth knowing, as the code has it:

- `NewClientRequestMessage` checks version, then command (`> 3`), then the reserved byte,
  then the address type (request.go:69-80). A request with both a bad command and a
  non-zero reserved byte therefore reports `ErrCmdNotSupport`.
- Command 0 passes the decoder. `request` then refuses it with reply code 7, as it does
  BIND.
- UDP ASSOCIATE gets no reply at all: `request` returns nil (socks5.go:171-172, 195-197).
- A bad version byte in the method-selection message yields a new error whose text is
  that of `ErrVerNotSupport` but which is not equal to it (auth.go:32). The model keeps
  the two apart (`AuthVerNotSupport` and `VerNotSupport`).

## Model

| member | source | states |
|---|---|---|
| `Wire.ReadFullOfOutcome` | request.go:63-65 | `ReadFullOf`, the model of `io.ReadFull`, succeeds exactly when there are `n` bytes and then yields the first `n`; otherwise it takes everything, and the error is EOF when nothing was there and UnexpectedEOF after a partial read |
| `Wire.PortBytesRoundTrip` | request.go:174 | the two bytes `p >> 8, p & 0xff` written for a port read back, as `(hi << 8) + lo`, as that port |
| `Wire.PortOfRoundTrip` | request.go:116 | the port `(hi << 8) + lo` read from two bytes is written back as those two bytes |
| `Wire.Reader.ReadFull` | request.go:63-65 | `io.ReadFull`: on success exactly the next `n` bytes are copied and consumed; on a short read the rest is consumed and the error is EOF (nothing left) or UnexpectedEOF |
| `Wire.Writer.Write` | request.go:176 | `conn.Write`: while writes still go through, the bytes are appended and one write is used up; once none are left, nothing is appended and the write fails |
| `IPText.Decimal` | request.go:96-97 | the decimal text of a number is a non-empty string of digits without a leading zero |
| `IPText.DecimalRoundTrip` | request.go:96-97 | reading the decimal text back gives the number |
| `IPText.DottedQuadShape` | request.go:96-97 | `DottedQuad`, the text `net.IP.String` gives a 4-byte address, has 7 to 15 characters and begins and ends with a digit |
| `IPText.DottedQuadInjective` | request.go:96-97 | two 4-byte addresses with the same dotted-decimal text are equal |
| `IPText.DottedQuadExample` | request_test.go:28 | the bytes 123, 35, 13, 89 read as "123.35.13.89" |
| `IPText.BytesToString` | request.go:109 | `string(buf[:n])` keeps the bytes: same length, each character has the code of its byte |
| `IPText.BytesToStringInjective` | request.go:109 | distinct domain bytes give distinct strings |
| `Auth.DecodeClientAuth` | auth.go:23-47 | on success the version is 5, `len(Methods) == NMethod`, exactly `2 + NMethod` bytes are consumed and they are the encoding of the message; never more bytes than there are |
| `Auth.ClientAuthRoundTrip` | auth.go:23-47 | every message with version 5 and `NMethod` methods decodes back to itself and consumes exactly its own `2 + N` bytes, whatever follows |
| `Auth.ClientAuthCases` | auth.go:25-40 | fewer than 2 bytes fail with the io error; a version other than 5 fails after 2 bytes, before any method byte is read; fewer than N method bytes fail; otherwise the methods are bytes 2 to 2+N |
| `Auth.ClientAuthExamples` | auth_test.go:10-38 | `{5,2,0,1}` decodes to version 5, 2 methods `[0,1]`; `{5,2,0}` fails |
| `Auth.NewClientAuthMessage` | auth.go:23-47 | the two `io.ReadFull` calls give the result of `DecodeClientAuth` on the unread bytes and advance the reader by exactly what it consumes |
| `Auth.NewServerAuthMessage` | auth.go:49-53 | appends exactly `{5, m}` for every method byte m, 0x00 and 0xff included |
| `Request.DecodeAddr` | request.go:87-110 | the DST.ADDR step: never consumes more than there is; `Request.AddrRoundTrip` and `Request.DecodedAddrIsWire` state that it decodes exactly the wire forms of IPv4, domain and IPv6 destinations |
| `Request.DecodeRequest` | request.go:61-119 | on success the header was 5, cmd, 0, atyp with cmd <= 3 and atyp in {1, 3, 4}, and the message's `Cmd` and `AddrType` are header bytes 1 and 3 |
| `Request.HeaderCheckOrder` | request.go:68-80 | the first failing header check decides the error: version, then command > 3, then reserved byte, then address type; only the 4 header bytes are consumed |
| `Request.RequestRoundTrip` | request.go:82-116 | every request with cmd <= 3 (0 included) decodes to its command, address type, address text and big-endian port, consuming exactly 4+4+2 bytes (IPv4), 4+16+2 (IPv6) or 4+1+L+2 (domain of L bytes) |
| `Request.AddrRoundTrip` | request.go:87-110 | every well-formed DST.ADDR decodes to its text (dotted quad, IPv6 text or the domain bytes as a string) and consumes exactly its own 4, 16 or 1+L bytes, whatever follows |
| `Request.DecodedAddrIsWire` | request.go:87-110 | a decoded DST.ADDR is the wire form of the destination read: 4 or 16 address bytes, or a length byte L and L domain bytes |
| `Request.DecodedIsEncoding` | request.go:61-119 | whatever decodes is exactly the encoding of the destination and port it names, with the port `256*hi + lo` |
| `Request.ExtraBytesIgnored` | request.go:61-119 | bytes after a complete request do not change the decoder's result or the count it consumes |
| `Request.TruncatedRequestFails` | request.go:62-116 | a request cut short anywhere (header, address, domain length, domain, port) fails, after consuming all there was |
| `Request.RequestExamples` | request_test.go:19-44 | `{5,1,0,1,123,35,13,89,0,0x50}` decodes to CONNECT, IPv4, "123.35.13.89", port 80; the same with command 0x0a fails with ErrCmdNotSupport |
| `Request.NewClientRequestMessage` | request.go:61-119 | the reads into the reused (or reallocated) buffer give exactly the result of `DecodeRequest` on the unread bytes and consume exactly what it consumes |
| `Request.ReadDstAddr` | request.go:87-110 | the DST.ADDR step reads what `DecodeAddr` describes whether the 4-byte buffer is reused (domain length <= 4) or replaced (IPv6, domain length > 4), and leaves a buffer of at least 2 bytes for the port |
| `Request.SuccessReply` | request.go:166-174 | the success reply `WriteRequestSuccessMessage` builds is the 4-byte header plus the address plus 2 port bytes long and starts with version 5 and REP 0 |
| `Request.SuccessReplyLayout` | request.go:165-178 | the success reply is `6 + len(addr)` bytes: 5, 0, 0, ATYP with ATYP = 4 exactly when the address has 16 bytes and 1 otherwise, the address itself, then the port in network order |
| `Request.SuccessReplyDecodes` | request.go:165-178 | a success reply for a 4- or 16-byte address, read back by the request decoder, gives the same address type, address text and port |
| `Request.SuccessReplyExample` | request_test.go:67-81 | 123.123.11.22 port 0x0439 gives `{5,0,0,1,123,123,11,22,4,0x39}` |
| `Request.FailureReply` | request.go:181 | the failure reply `WriteRequestFailureMessage` sends is 10 bytes: version 5, the reply code, and an all-zero address and port |
| `Request.FailureReplyLayout` | request.go:180-183 | the failure reply is always the 10 bytes of the success reply for 0.0.0.0:0 with the reply code in place of 0 |
| `Request.WriteRequestSuccessMessage` | request.go:165-178 | the appends build exactly the success reply, which is written in one call |
| `Request.WriteRequestFailureMessage` | request.go:180-183 | writes exactly the 10-byte failure reply with the given code |
| `Socks5.DialAddress` | socks5.go:180 | the address `fmt.Sprintf("%s:%d", Addr, Port)` gives is the address text, a colon, and digits that read back as the port |
| `Socks5.DialAddressExample` | socks5.go:180 | the request to 123.35.13.89, port 80, is dialed as "123.35.13.89:80" |
| `Socks5.PasswordTrace` | socks5.go:130-146 | the username/password step never consumes more than is there, never uses more writes than there are, and writes nothing once the connection has gone |
| `Socks5.AuthTrace` | socks5.go:106-149 | auth never consumes more than is there, never uses more writes than there are, writes nothing on a gone connection, and when it returns nil a write went through and the first two bytes written are `{5, configured method}` |
| `Socks5.TcpAnswer` | socks5.go:180-192 | what handleTCPRequest answers after the dial never uses more writes than there are and writes nothing on a gone connection; it returns nil only when the relay does, after the success reply went through |
| `Socks5.RequestAnswer` | socks5.go:164-176 | the choice request makes on a decoded request never uses more writes than there are; it returns nil only for UDP ASSOCIATE, or for CONNECT when the relay returns nil, and never for an IPv6 destination |
| `Socks5.RequestTrace` | socks5.go:157-177 | request never consumes more than is there, never uses more writes than there are, and writes nothing on a gone connection |
| `Socks5.ConnectionTrace` | socks5.go:91-97 | the whole handshake never consumes more than is there, never uses more writes than there are, and writes nothing on a gone connection |
| `Socks5.AuthDecodeFailure` | socks5.go:107-110 | when the client's message does not decode, auth returns that error and writes nothing |
| `Socks5.AuthSelectsOffered` | socks5.go:114-128 | when the configured method is offered, the first write is exactly `{5, method}` |
| `Socks5.AuthRejectsUnoffered` | socks5.go:114-125 | when it is not offered, auth writes only `{5, 0xff}`, fails with "method not acceptable", reads nothing past the client's message, and its outcome is the same with any other checker or password decoder |
| `Socks5.AuthPasswordOutcome` | socks5.go:130-146 | with Password and the selection written, a rejected login gets the failure status (if it still goes through) and ErrPasswordAuthFailure; an accepted one gets the success status and nil, or the write's error when the connection has gone after the selection |
| `Socks5.AuthSucceedsIff` | socks5.go:106-149 | auth returns nil exactly when the message decodes, offers the configured method and the selection is written, and, for Password, the credentials decode, the checker accepts them and the success status is written too |
| `Socks5.AuthExamples` | socks5_test.go:10-32 | with NoAuth, the offer `{NoAuth, GSSAPI}` is answered `{5, 0}` and auth returns nil; `{5,2,0}` fails and writes nothing |
| `Socks5.RequestRefusesIPv6` | socks5.go:164-167 | an IPv6 destination gets the failure reply with code 8 and ErrAtypNotSupport, whatever the command |
| `Socks5.RequestDispatch` | socks5.go:169-197 | BIND and command 0 get code 7 and ErrCmdNotSupport; UDP returns nil and writes nothing; CONNECT whose dial fails gets code 5 and the dial error; CONNECT whose dial succeeds gets the success reply for the local address and returns the relay's result, or, when the reply cannot be written, the write's error without relaying |
| `Socks5.DialOnlyForConnect` | socks5.go:164-185 | only a decoded CONNECT to a non-IPv6 destination depends on the dialer and the relay; every other request ends the same way with any others |
| `Socks5.ConnectionStopsAfterFailedAuth` | socks5.go:91-97 | a failed auth ends the connection before any request byte is read |
| `Socks5.ConnectionAfterAuth` | socks5.go:91-97 | after a successful auth the request is read from the bytes auth left and answered with the writes auth left, its output following auth's |
| `Socks5.NoAuthOfferAccepted` | socks5.go:114-128 | with NoAuth configured, `{5, 1, 0}` is answered `{5, 0}` and auth returns nil, whatever follows, using one write |
| `Socks5.ConnectExampleAnswered` | socks5.go:179-192 | CONNECT to 123.35.13.89:80 dials "123.35.13.89:80" and answers with the success reply for the local end, or fails with the write's error when no write goes through |
| `Socks5.ConnectionExample` | socks5.go:91-97 | the whole exchange `{5,1,0}` then CONNECT 123.35.13.89:80, on a connection that takes both writes, writes `{5,0}` followed by the success reply and consumes all 13 bytes |
| `Socks5.ConnectionExampleReplyLost` | socks5.go:188-190 | the same exchange on a connection that takes only the first write: `{5,0}` is written, the reply is lost and the connection ends with the write's error after all 13 bytes were read |
| `Socks5.Offers` | socks5.go:114-120 | the loop sets `acceptable` exactly when the configured method is among the offered ones |
| `Socks5.NewClientPasswordMessage` | socks5.go:131-134 | the password message is what the sub-negotiation decoder makes of the unread bytes, and the reader advances by what it consumed |
| `Socks5.WriteServerPasswordMessage` | socks5.go:138 | writes the status bytes of the sub-negotiation, success or failure |
| `Socks5.S5Server.InitConfig` | socks5.go:47-55 | a nil Config becomes DefaultConfig (NoAuth, 5 s); Password without a checker returns ErrPasswordCheckerNotSet; otherwise nil |
| `Socks5.S5Server.Auth` | socks5.go:106-149 | the reads and writes of auth are exactly those of `AuthTrace`, and so are the error and the writes left |
| `Socks5.S5Server.PasswordCheck` | socks5.go:130-146 | the username/password part of auth reads, writes and returns exactly what `PasswordTrace` says |
| `Socks5.S5Server.Request` | socks5.go:157-177 | the reads and writes of request are exactly those of `RequestTrace`, and so is the error |
| `Socks5.S5Server.HandleTCPRequest` | socks5.go:179-193 | dials `addr:port` with the configured timeout and writes, returns and leaves exactly what `TcpAnswer` says: failure gives code 5 and the dial error, success the success reply and the relay's result, a failed reply write that write's error |
| `Socks5.S5Server.HandleUDPRequest` | socks5.go:195-197 | UDP ASSOCIATE returns nil |
| `Socks5.S5Server.HandleConnection` | socks5.go:91-97 | auth, then request on the bytes auth left, unless auth failed; reads, writes and error are those of `ConnectionTrace` |

## Left out

- `Run` (socks5.go:57-89): the TCP listener, the signal handling and the goroutine per connection are I/O and concurrency.
- `forward` (socks5.go:199-218): the two concurrent copies. The error it returns is the parameter `relay`. After a successful CONNECT, the bytes the relay reads from the client and writes back to it are not part of the model: `Trace.consumed` and `Trace.output`, and the reader and writer that `S5Server.Request` and `S5Server.HandleConnection` change, stop at the success reply.
- `net.DialTimeout` and `LocalAddr` (socks5.go:180-192): the dial and the local address of the new connection are the parameter `dial`. The timeout is passed to it but not enforced.
- The IPv6 text of `net.IP.String` (request.go:96-97) is the parameter `render6`, because Go's IPv6 printer is foreign code.
- The username/password sub-negotiation (`NewClientPasswordMessage`, `WriteServerPasswordMessage`, `PasswordAuthSuccess`/`PasswordAuthFailure`) is not defined in any modelled file. It is the parameter `PasswordCodec`, and its RFC 1929 layout is not modelled.
- cmd/main.go (flag parsing, the credentials table) and every `log.Printf` are start-up plumbing and logging.
- Partial writes: a single write either delivers all its bytes or, once the connection has gone, none. A connection that goes between two writes is modelled, through `okWrites`.
- `S5Server.IP` and `S5Server.Port` are used only by `Run`.
- `DefaultConfig` is a shared pointer in Go. Here it is a value, so aliasing through it is not captured.
- Go panics: `auth` dereferences the configuration and calls the checker. The model requires what `Run` ensures by calling `initConfig` first: a configuration is present and, for Password, has a checker.
