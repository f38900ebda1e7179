/**
 * Java's fixed-width integers. Fields declared `long` or `int` in the source are
 * values of Int64 or Int32; arithmetic that Java performs on them wraps around,
 * which WrapLong and WrapInt write out.
 */
module JavaInt {

  const LONG_MODULUS: int := 0x1_0000_0000_0000_0000
  const INT_MODULUS: int := 0x1_0000_0000

  type Int64 = x: int | -0x8000_0000_0000_0000 <= x < 0x8000_0000_0000_0000
  type Int32 = x: int | -0x8000_0000 <= x < 0x8000_0000

  /** An octet of a byte stream. */
  type Byte = b: int | 0 <= b < 0x100

  /** Two's-complement wrap-around of `long` arithmetic. */
  function WrapLong(x: int): (r: Int64)
    ensures (x - r) % LONG_MODULUS == 0
  {
    var m := (x + 0x8000_0000_0000_0000) % LONG_MODULUS;
    assert x + 0x8000_0000_0000_0000 == (x + 0x8000_0000_0000_0000) / LONG_MODULUS * LONG_MODULUS + m;
    m - 0x8000_0000_0000_0000
  }

  /** Two's-complement wrap-around of `int` arithmetic. */
  function WrapInt(x: int): (r: Int32)
    ensures (x - r) % INT_MODULUS == 0
  {
    var m := (x + 0x8000_0000) % INT_MODULUS;
    assert x + 0x8000_0000 == (x + 0x8000_0000) / INT_MODULUS * INT_MODULUS + m;
    m - 0x8000_0000
  }

  /** A long is the only long congruent to itself: wrapping is the identity on longs. */
  lemma WrapLongUnique(x: int, y: Int64)
    requires (x - y) % LONG_MODULUS == 0
    ensures WrapLong(x) == y
  {
    var r := WrapLong(x);
    var k1 := (x - r) / LONG_MODULUS;
    var k2 := (x - y) / LONG_MODULUS;
    assert x - r == k1 * LONG_MODULUS;
    assert x - y == k2 * LONG_MODULUS;
    assert y - r == (k1 - k2) * LONG_MODULUS;
  }

  /** Wrapping an intermediate sum changes nothing: `long` addition is addition modulo 2^64. */
  lemma WrapLongAddWrapped(x: int, y: int)
    ensures WrapLong(WrapLong(x) + y) == WrapLong(x + y)
  {
    var w := WrapLong(x);
    var r := WrapLong(x + y);
    var k1 := (x - w) / LONG_MODULUS;
    var k2 := (x + y - r) / LONG_MODULUS;
    assert x - w == k1 * LONG_MODULUS;
    assert x + y - r == k2 * LONG_MODULUS;
    assert w + y - r == (k2 - k1) * LONG_MODULUS;
    WrapLongUnique(w + y, r);
  }

  lemma WrapIntUnique(x: int, y: Int32)
    requires (x - y) % INT_MODULUS == 0
    ensures WrapInt(x) == y
  {
    var r := WrapInt(x);
    var k1 := (x - r) / INT_MODULUS;
    var k2 := (x - y) / INT_MODULUS;
    assert x - r == k1 * INT_MODULUS;
    assert x - y == k2 * INT_MODULUS;
    assert y - r == (k1 - k2) * INT_MODULUS;
  }

  /** Wrapping an intermediate sum changes nothing: `int` addition is addition modulo 2^32. */
  lemma WrapIntAddWrapped(x: int, y: int)
    ensures WrapInt(WrapInt(x) + y) == WrapInt(x + y)
  {
    var w := WrapInt(x);
    var r := WrapInt(x + y);
    var k1 := (x - w) / INT_MODULUS;
    var k2 := (x + y - r) / INT_MODULUS;
    assert x - w == k1 * INT_MODULUS;
    assert x + y - r == k2 * INT_MODULUS;
    assert w + y - r == (k2 - k1) * INT_MODULUS;
    WrapIntUnique(w + y, r);
  }

  /** Adding a wrapped difference back undoes the subtraction: `a + (b - a) == b` in `long`. */
  lemma AddWrappedDifference(a: Int64, b: Int64, d: Int64, s: Int64)
    requires d == WrapLong(b - a) && s == WrapLong(a + d)
    ensures s == b
  {
    var k := (b - a - d) / LONG_MODULUS;
    assert b - a - d == k * LONG_MODULUS;
    assert a + d - b == -k * LONG_MODULUS;
    WrapLongUnique(a + d, b);
  }

  /** Subtracting back a wrapped sum undoes the addition: `(a + d) - a == d` in `long`. */
  lemma SubtractWrappedSum(a: Int64, d: Int64, s: Int64, e: Int64)
    requires s == WrapLong(a + d) && e == WrapLong(s - a)
    ensures e == d
  {
    var k := (a + d - s) / LONG_MODULUS;
    assert a + d - s == k * LONG_MODULUS;
    assert s - a - d == -k * LONG_MODULUS;
    WrapLongUnique(s - a, d);
  }

  /** A `long` is left alone by wrapping. */
  lemma WrapLongOfLong(x: Int64)
    ensures WrapLong(x) == x
  {
    WrapLongUnique(x, x);
  }

  /** How far apart two integers are. */
  function Distance(a: int, b: int): nat
  {
    if a >= b then a - b else b - a
  }

  /** `Math.round` into a `long`: values beyond the range saturate at its ends. */
  function ClampLong(x: int): Int64
  {
    if x < -0x8000_0000_0000_0000 then -0x8000_0000_0000_0000
    else if x >= 0x8000_0000_0000_0000 then 0x7FFF_FFFF_FFFF_FFFF
    else x
  }

  /** No `long` lies closer to `x` than `ClampLong(x)`. */
  lemma ClampLongNearest(x: int, y: Int64)
    ensures Distance(ClampLong(x), x) <= Distance(y, x)
  {
  }

  /** A Java `byte[]`: its length is an `int`. */
  type ByteArray = s: seq<Byte> | |s| < 0x8000_0000

  /** `ByteBuffer.putInt`: the four bytes of an `int`, most significant first. */
  function IntToBytes(n: Int32): (r: seq<Byte>)
    ensures |r| == 4
  {
    var u: int := if n < 0 then n + INT_MODULUS else n;
    [u / 0x100_0000, u / 0x1_0000 % 0x100, u / 0x100 % 0x100, u % 0x100]
  }

  /** `ByteBuffer.getInt`: the `int` whose bytes, most significant first, are `b`. */
  function BytesToInt(b: seq<Byte>): Int32
    requires |b| == 4
  {
    var u: int := b[0] as int * 0x100_0000 + b[1] as int * 0x1_0000 + b[2] as int * 0x100 + b[3] as int;
    if u >= 0x8000_0000 then u - INT_MODULUS else u
  }

  /** Reading back the four bytes written for an `int` gives the `int`. */
  lemma IntBytesRoundTrip(n: Int32)
    ensures BytesToInt(IntToBytes(n)) == n
  {
    var u: int := if n < 0 then n + INT_MODULUS else n;
    var b := IntToBytes(n);
    assert u == u / 0x100_0000 * 0x100_0000 + (u / 0x1_0000 % 0x100) * 0x1_0000 + (u / 0x100 % 0x100) * 0x100 + u % 0x100;
  }

  /** Four bytes are the bytes written for the `int` read from them. */
  lemma BytesIntRoundTrip(b: seq<Byte>)
    requires |b| == 4
    ensures IntToBytes(BytesToInt(b)) == b
  {
    var u: int := b[0] as int * 0x100_0000 + b[1] as int * 0x1_0000 + b[2] as int * 0x100 + b[3] as int;
    var b0, b1, b2: int := b[0], b[1], b[2];
    assert u / 0x100 == b0 * 0x1_0000 + b1 * 0x100 + b2;
    assert u / 0x1_0000 == b0 * 0x100 + b1;
    assert u / 0x100_0000 == b0;
  }
}
