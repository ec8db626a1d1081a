/** Bytes, the protocol constants shared by every message, and the two halves of a
    connection: a reader over the bytes the client sent and an append-only writer. */
module Wire {
  import opened Errors

  type byte = x: int | 0 <= x < 0x100
  type uint16 = x: int | 0 <= x < 0x1_0000

  const SOCKS5_VER: byte := 0x05
  const RSV: byte := 0x00

  /** What a decoder makes of a byte source: its result and how many bytes it took. */
  datatype Decoded<T> = Decoded(result: Result<T>, consumed: nat)

  /** The error io.ReadFull reports when it finds only `avail` bytes, fewer than it needs. */
  function ShortReadError(avail: nat): Error {
    if avail == 0 then EOF else UnexpectedEOF
  }

  /** io.ReadFull of `n` bytes from the unread bytes `s`: all `n` of them, or an error after
      taking whatever was left. */
  function ReadFullOf(s: seq<byte>, n: nat): Decoded<seq<byte>> {
    if n <= |s| then Decoded(Ok(s[..n]), n) else Decoded(Err(ShortReadError(|s|)), |s|)
  }

  /** io.ReadFull succeeds exactly when there are `n` bytes and then yields the first `n`;
      otherwise it takes everything and reports EOF when there was nothing to read and
      UnexpectedEOF after a partial read. */
  lemma ReadFullOfOutcome(s: seq<byte>, n: nat)
    ensures var d := ReadFullOf(s, n);
      && (d.result.Ok? <==> n <= |s|)
      && (d.result.Ok? ==> d.consumed == n && d.result.value == s[..n] && |d.result.value| == n)
      && (d.result.Err? ==> d.consumed == |s| && d.result.error == (if s == [] then EOF else UnexpectedEOF))
  {
  }

  /** The big-endian port of two bytes, as `(uint16(hi) << 8) + uint16(lo)`. */
  function PortOf(hi: byte, lo: byte): uint16 {
    hi * 0x100 + lo
  }

  /** The two bytes of a port in network order, as `byte(p >> 8), byte(p & 0xff)`. */
  function PortBytes(p: uint16): seq<byte> {
    [p / 0x100, p % 0x100]
  }

  /** The two bytes written for a port read back as that port. */
  lemma PortBytesRoundTrip(p: uint16)
    ensures |PortBytes(p)| == 2 && PortOf(PortBytes(p)[0], PortBytes(p)[1]) == p
  {
  }

  /** The port read from two bytes is written back as those two bytes. */
  lemma PortOfRoundTrip(hi: byte, lo: byte)
    ensures PortBytes(PortOf(hi, lo)) == [hi, lo]
  {
  }

  /** The part of a connection the server reads from. */
  class Reader {
    const data: seq<byte>
    var pos: nat

    ghost predicate Valid()
      reads this
    {
      pos <= |data|
    }

    /** The bytes not read yet. */
    function Unread(): seq<byte>
      reads this
      requires Valid()
    {
      data[pos..]
    }

    constructor (input: seq<byte>)
      ensures Valid() && data == input && pos == 0
    {
      data := input;
      pos := 0;
    }

    /** io.ReadFull(conn, buf[:n]): copies the next `n` bytes into `buf`; when fewer are
        left it copies those, consumes them and fails. */
    method ReadFull(buf: array<byte>, n: nat) returns (err: Option<Error>)
      requires Valid() && n <= buf.Length
      modifies this, buf
      ensures Valid()
      ensures var d := ReadFullOf(old(Unread()), n);
        && pos == old(pos) + d.consumed
        && err == (if d.result.Ok? then None else Some(d.result.error))
        && buf[..d.consumed] == old(Unread())[..d.consumed]
        && buf[d.consumed..] == old(buf[d.consumed..])
    {
      var m := if n <= |data| - pos then n else |data| - pos;
      var i := 0;
      while i < m
        invariant 0 <= i <= m && pos == old(pos)
        invariant forall k :: 0 <= k < i ==> buf[k] == data[pos + k]
        invariant forall k :: i <= k < buf.Length ==> buf[k] == old(buf[k])
      {
        buf[i] := data[pos + i];
        i := i + 1;
      }
      assert buf[..m] == data[pos..][..m];
      assert buf[m..] == old(buf[m..]);
      pos := pos + m;
      err := if m < n then Some(ShortReadError(m)) else None;
    }

    /** Consumes `n` bytes that a decoder outside this model has already looked at. */
    method Skip(n: nat)
      requires Valid() && n <= |Unread()|
      modifies this
      ensures Valid() && pos == old(pos) + n
    {
      pos := pos + n;
    }
  }

  /** Appending is associative; stated once so that proofs about output written in several
      steps need not rediscover it (the solver does so only at a high cost). */
  lemma AppendAssoc(x: seq<byte>, y: seq<byte>, z: seq<byte>)
    ensures x + y + z == x + (y + z)
  {
  }

  /** What a write of `b` puts on the wire when `okWrites` more writes will still go through:
      all of it, or nothing once the peer has gone. */
  function Sent(okWrites: nat, b: seq<byte>): seq<byte> {
    if okWrites == 0 then [] else b
  }

  /** The error of a write made when `okWrites` more writes will still go through. */
  function WriteError(okWrites: nat): Option<Error> {
    if okWrites == 0 then Some(WriteFailed) else None
  }

  /** How many writes still go through after one more is made. */
  function After(okWrites: nat): nat {
    if okWrites == 0 then 0 else okWrites - 1
  }

  /** The part of a connection the server writes to: everything written so far, in order, and
      how many more writes go through before the peer goes. Once they are used up every write
      fails and delivers nothing, so a connection can take some writes and fail a later one. */
  class Writer {
    var output: seq<byte>
    var okWrites: nat

    constructor (okWrites: nat)
      ensures output == [] && this.okWrites == okWrites
    {
      output := [];
      this.okWrites := okWrites;
    }

    /** conn.Write(b) */
    method Write(b: seq<byte>) returns (err: Option<Error>)
      modifies this
      ensures output == old(output) + Sent(old(okWrites), b)
      ensures okWrites == After(old(okWrites))
      ensures err == WriteError(old(okWrites))
    {
      if okWrites == 0 {
        err := Some(WriteFailed);
      } else {
        output := output + b;
        okWrites := okWrites - 1;
        err := None;
      }
    }
  }
}
