/** Text forms of addresses: the dotted-decimal form net.IP.String gives a 4-byte address,
    and Go's string(b) of raw bytes. The text of a 16-byte address comes from outside. */
module IPText {
  import opened Wire

  predicate IsDigit(c: char) {
    '0' <= c <= '9'
  }

  predicate AllDigits(s: string) {
    forall i :: 0 <= i < |s| ==> IsDigit(s[i])
  }

  function Digit(d: int): char
    requires 0 <= d < 10
  {
    ('0' as int + d) as char
  }

  /** The decimal form of `n`, without leading zeros. */
  function Decimal(n: nat): (r: string)
    ensures 1 <= |r| && AllDigits(r)
    ensures |r| > 1 ==> r[0] != '0'
  {
    if n < 10 then [Digit(n)] else Decimal(n / 10) + [Digit(n % 10)]
  }

  /** The number a string of decimal digits stands for. */
  function DecimalValue(s: string): nat
    requires AllDigits(s)
  {
    if s == [] then 0 else DecimalValue(s[..|s| - 1]) * 10 + (s[|s| - 1] as int - '0' as int)
  }

  lemma {:induction false} DecimalRoundTrip(n: nat)
    ensures DecimalValue(Decimal(n)) == n
  {
    if n >= 10 {
      DecimalRoundTrip(n / 10);
      var r := Decimal(n);
      assert r[..|r| - 1] == Decimal(n / 10);
    }
  }

  lemma DecimalInjective(m: nat, n: nat)
    requires Decimal(m) == Decimal(n)
    ensures m == n
  {
    DecimalRoundTrip(m);
    DecimalRoundTrip(n);
  }

  /** A byte has one to three decimal digits. */
  lemma ByteDecimalLength(b: byte)
    ensures |Decimal(b)| <= 3
  {
    if b >= 10 {
      assert |Decimal(b / 10)| <= 2;
    }
  }

  /** net.IP.String of a 4-byte address: "a.b.c.d". */
  function DottedQuad(ip: seq<byte>): string
    requires |ip| == 4
  {
    Decimal(ip[0]) + ("." + (Decimal(ip[1]) + ("." + (Decimal(ip[2]) + ("." + Decimal(ip[3]))))))
  }

  /** The dotted-decimal form of a 4-byte address has 7 to 15 characters and begins and ends
      with a digit. */
  lemma DottedQuadShape(ip: seq<byte>)
    requires |ip| == 4
    ensures var r := DottedQuad(ip);
      7 <= |r| <= 15 && IsDigit(r[0]) && IsDigit(r[|r| - 1])
  {
    ByteDecimalLength(ip[0]);
    ByteDecimalLength(ip[1]);
    ByteDecimalLength(ip[2]);
    ByteDecimalLength(ip[3]);
  }

  /** In a string of digits followed by a dot, the first dot sits right after the digits. */
  lemma FirstDot(x: string, xs: string)
    requires AllDigits(x)
    ensures (x + ("." + xs))[|x|] == '.'
    ensures forall i :: 0 <= i < |x| ==> (x + ("." + xs))[i] != '.'
  {
  }

  /** Two strings of digits joined to their tails by a dot split back the same way. */
  lemma SplitAtDot(x: string, xs: string, y: string, ys: string)
    requires AllDigits(x) && AllDigits(y)
    requires x + ("." + xs) == y + ("." + ys)
    ensures x == y && xs == ys
  {
    var l := x + ("." + xs);
    FirstDot(x, xs);
    FirstDot(y, ys);
    assert |x| == |y|;
    assert x == l[..|x|] == y;
    assert xs == l[|x| + 1..] == ys;
  }

  /** Distinct 4-byte addresses have distinct dotted-decimal forms. */
  lemma DottedQuadInjective(a: seq<byte>, b: seq<byte>)
    requires |a| == 4 && |b| == 4 && DottedQuad(a) == DottedQuad(b)
    ensures a == b
  {
    var ta := Decimal(a[1]) + ("." + (Decimal(a[2]) + ("." + Decimal(a[3]))));
    var tb := Decimal(b[1]) + ("." + (Decimal(b[2]) + ("." + Decimal(b[3]))));
    SplitAtDot(Decimal(a[0]), ta, Decimal(b[0]), tb);
    var ua := Decimal(a[2]) + ("." + Decimal(a[3]));
    var ub := Decimal(b[2]) + ("." + Decimal(b[3]));
    SplitAtDot(Decimal(a[1]), ua, Decimal(b[1]), ub);
    SplitAtDot(Decimal(a[2]), Decimal(a[3]), Decimal(b[2]), Decimal(b[3]));
    DecimalInjective(a[0], b[0]);
    DecimalInjective(a[1], b[1]);
    DecimalInjective(a[2], b[2]);
    DecimalInjective(a[3], b[3]);
  }

  /** Go's string(b): each byte becomes the character with that code. */
  function BytesToString(b: seq<byte>): (r: string)
    ensures |r| == |b| && forall i :: 0 <= i < |b| ==> r[i] as int == b[i]
  {
    seq(|b|, i requires 0 <= i < |b| => b[i] as char)
  }

  lemma BytesToStringInjective(a: seq<byte>, b: seq<byte>)
    requires BytesToString(a) == BytesToString(b)
    ensures a == b
  {
    assert |a| == |b|;
    forall i | 0 <= i < |a| ensures a[i] == b[i] {
      assert BytesToString(a)[i] == BytesToString(b)[i];
    }
  }

  /** net.IP(ip).String(): dotted decimal for 4 bytes; for a 16-byte address, the text
      `render6` gives it (the IPv6 printer of Go's net package is not part of this model). */
  function IPString(ip: seq<byte>, render6: seq<byte> -> string): string {
    if |ip| == 4 then DottedQuad(ip) else render6(ip)
  }

  lemma DottedQuadExample()
    ensures DottedQuad([123, 35, 13, 89]) == "123.35.13.89"
  {
    assert Decimal(123) == "123" by {
      assert Decimal(12) == "12";
    }
    assert Decimal(35) == "35";
    assert Decimal(13) == "13";
    assert Decimal(89) == "89";
  }
}
