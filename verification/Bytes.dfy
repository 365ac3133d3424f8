/** Bytes, and the 4-byte little-endian form of the C `int` fields of the headers. */
module Bytes {

  type byte = x: int | 0 <= x < 256

  const INT_SPAN := 0x1_0000_0000

  /** Storing a wider number in a C `int`: reduction modulo 2^32 into two's complement. */
  function ToInt32(n: int): (r: int)
    ensures -0x8000_0000 <= r < 0x8000_0000
    ensures (n - r) % INT_SPAN == 0
    ensures -0x8000_0000 <= n < 0x8000_0000 ==> r == n
  {
    var m := n % INT_SPAN;
    if m < 0x8000_0000 then m else m - INT_SPAN
  }

  function EncodeInt(n: int): (b: seq<byte>)
    ensures |b| == 4
  {
    var m := n % INT_SPAN;
    [m % 0x100, m / 0x100 % 0x100, m / 0x1_0000 % 0x100, m / 0x100_0000]
  }

  function FromDigits(b: seq<byte>): int
    requires |b| == 4
  {
    (b[0] as int) + 0x100 * (b[1] as int) + 0x1_0000 * (b[2] as int) + 0x100_0000 * (b[3] as int)
  }

  function DecodeInt(b: seq<byte>): int
    requires |b| == 4
  {
    ToInt32(FromDigits(b))
  }

  lemma DigitsRoundTrip(n: int)
    ensures FromDigits(EncodeInt(n)) == n % INT_SPAN
  {
    var m := n % INT_SPAN;
    var m1, m2, m3 := m / 0x100, m / 0x1_0000, m / 0x100_0000;
    assert m2 == m1 / 0x100 && m3 == m2 / 0x100;
    assert m == m % 0x100 + 0x100 * m1;
    assert m1 == m1 % 0x100 + 0x100 * m2;
    assert m2 == m2 % 0x100 + 0x100 * m3;
  }

  lemma IntRoundTrip(n: int)
    ensures DecodeInt(EncodeInt(n)) == ToInt32(n)
  {
    DigitsRoundTrip(n);
  }

  /** The encoding tells two numbers apart exactly when they differ modulo 2^32. */
  lemma EncodeIntInjective(m: int, n: int)
    ensures EncodeInt(m) == EncodeInt(n) <==> m % INT_SPAN == n % INT_SPAN
  {
    DigitsRoundTrip(m);
    DigitsRoundTrip(n);
  }

  function Zeros(n: nat): (z: seq<byte>)
    ensures |z| == n && forall i :: 0 <= i < n ==> z[i] == 0
  {
    seq(n, i => 0)
  }
}
