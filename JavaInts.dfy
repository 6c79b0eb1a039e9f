/**
 * Java's fixed-width integers over Dafny's unbounded `int`: ranges, the
 * two's-complement wrap of `int`/`long` arithmetic and narrowing casts, and
 * the big-endian byte layout that `DataInput`/`DataOutput` use.
 */
module JavaInts {

  const TWO_8: int := 0x100
  const TWO_15: int := 0x8000
  const TWO_16: int := 0x1_0000
  const TWO_24: int := 0x100_0000
  const TWO_31: int := 0x8000_0000
  const TWO_32: int := 0x1_0000_0000
  const TWO_63: int := 0x8000_0000_0000_0000
  const TWO_64: int := 0x1_0000_0000_0000_0000

  /** An unsigned byte as it travels on the wire. */
  type u8 = x: int | 0 <= x < 0x100

  predicate IsByte(x: int) { -0x80 <= x < 0x80 }
  predicate IsShort(x: int) { -0x8000 <= x < 0x8000 }
  predicate IsInt(x: int) { -0x8000_0000 <= x < 0x8000_0000 }
  predicate IsLong(x: int) { -0x8000_0000_0000_0000 <= x < 0x8000_0000_0000_0000 }

  type int8 = x: int | IsByte(x)
  type int32 = x: int | IsInt(x)
  type int64 = x: int | IsLong(x)

  /** Java `int` arithmetic: the result of an operation, wrapped into 32 bits. */
  function Wrap32(x: int): (r: int32)
    ensures (r - x) % TWO_32 == 0
    ensures IsInt(x) ==> r == x
  {
    var m := x % TWO_32;
    if m >= TWO_31 then m - TWO_32 else m
  }

  /** Java `long` arithmetic: the result of an operation, wrapped into 64 bits. */
  function Wrap64(x: int): (r: int64)
    ensures (r - x) % TWO_64 == 0
    ensures IsLong(x) ==> r == x
  {
    var m := x % TWO_64;
    if m >= TWO_63 then m - TWO_64 else m
  }

  /** The `(byte)` cast of a Java integer: its low 8 bits, read as signed. */
  function ToByte(x: int): (r: int)
    ensures IsByte(r) && (r - x) % TWO_8 == 0
    ensures IsByte(x) ==> r == x
  {
    var m := x % TWO_8;
    if m >= 0x80 then m - TWO_8 else m
  }

  /** `b & 0xFF` for a signed Java byte. */
  function Unsigned8(b: int): (r: u8)
    requires IsByte(b)
    ensures ToByte(r) == b
  {
    if b < 0 then b + TWO_8 else b
  }

  /** `n` bytes, most significant first, of `v mod 256^n`. */
  function BigEndian(v: int, n: nat): (r: seq<u8>)
    ensures |r| == n
    decreases n
  {
    if n == 0 then [] else BigEndian(v / TWO_8, n - 1) + [v % TWO_8]
  }

  /** The unsigned value of bytes read most significant first. */
  function FromBigEndian(bs: seq<u8>): nat
  {
    if bs == [] then 0 else FromBigEndian(bs[..|bs| - 1]) * TWO_8 + bs[|bs| - 1]
  }

  function Pow256(n: nat): (r: nat)
    ensures r >= 1
  {
    if n == 0 then 1 else TWO_8 * Pow256(n - 1)
  }

  /** The powers of 256 the fixed-width readers use. */
  lemma Pow256Values()
    ensures Pow256(2) == TWO_16 && Pow256(4) == TWO_32 && Pow256(8) == TWO_64
  {
    assert Pow256(1) == 0x100;
    assert Pow256(2) == 0x1_0000;
    assert Pow256(3) == 0x100_0000;
    assert Pow256(4) == 0x1_0000_0000;
    assert Pow256(5) == 0x100_0000_0000;
    assert Pow256(6) == 0x1_0000_0000_0000;
    assert Pow256(7) == 0x100_0000_0000_0000;
  }

  lemma {:induction false} FromBigEndianBound(bs: seq<u8>)
    ensures FromBigEndian(bs) < Pow256(|bs|)
  {
    if bs != [] {
      FromBigEndianBound(bs[..|bs| - 1]);
    }
  }

  /** Writing `n` bytes big-endian and reading them back gives `v mod 256^n`. */
  lemma {:induction false} BigEndianRoundTrip(v: int, n: nat)
    ensures FromBigEndian(BigEndian(v, n)) == v % Pow256(n)
    decreases n
  {
    if n > 0 {
      var bs := BigEndian(v, n);
      assert bs[..n - 1] == BigEndian(v / TWO_8, n - 1);
      BigEndianRoundTrip(v / TWO_8, n - 1);
      DivModStep(v, Pow256(n - 1));
    }
  }

  lemma DivModStep(v: int, p: int)
    requires p >= 1
    ensures ((v / TWO_8) % p) * TWO_8 + v % TWO_8 == v % (TWO_8 * p)
  {
    var q := v / TWO_8;
    var r := v % TWO_8;
    var q2 := q / p;
    var r2 := q % p;
    assert q == q2 * p + r2;
    assert v == q * TWO_8 + r;
    calc {
      v;
      (q2 * p + r2) * TWO_8 + r;
      { MulDistrib(q2 * p, r2, TWO_8); }
      (q2 * p) * TWO_8 + r2 * TWO_8 + r;
      { MulAssoc(q2, p, TWO_8); }
      q2 * (p * TWO_8) + (r2 * TWO_8 + r);
    }
    assert 0 <= r2 * TWO_8 + r < TWO_8 * p by { MulBound(r2, p, TWO_8); }
    ModUnique(v, TWO_8 * p, q2, r2 * TWO_8 + r);
  }

  lemma MulDistrib(a: int, b: int, c: int)
    ensures (a + b) * c == a * c + b * c
  {
  }

  lemma MulAssoc(a: int, b: int, c: int)
    ensures (a * b) * c == a * (b * c)
  {
  }

  lemma MulBound(r2: int, p: int, k: int)
    requires 0 <= r2 < p && k > 0
    ensures 0 <= r2 * k && r2 * k + k <= p * k
  {
    assert (r2 + 1) * k <= p * k;
  }

  /** Division and remainder are determined by any `q, r` with `v == q * d + r`, `0 <= r < d`. */
  lemma ModUnique(v: int, d: int, q: int, r: int)
    requires d > 0 && v == q * d + r && 0 <= r < d
    ensures v % d == r && v / d == q
  {
    var q' := v / d;
    var r' := v % d;
    assert v == q' * d + r';
    var k := q - q';
    assert k * d == r' - r by { MulSub(q, q', d); }
    if k >= 1 {
      AtLeastOnce(k, d);
    } else if k <= -1 {
      AtLeastOnce(-k, d);
    }
  }

  lemma MulSub(a: int, b: int, d: int)
    ensures (a - b) * d == a * d - b * d
  {
  }

  lemma AtLeastOnce(k: int, d: int)
    requires k >= 1 && d > 0
    ensures k * d >= d
  {
    assert k * d == (k - 1) * d + d;
    assert (k - 1) * d >= 0;
  }

  /** An unsigned value below `2 * half` read as a two's-complement number of that width. */
  function Signed(u: int, half: int): int
  {
    if u >= half then u - 2 * half else u
  }

  /** A float bit pattern (as an unsigned 32-bit value) that encodes a NaN: all-ones exponent, non-zero fraction. */
  predicate IsFloatNaN(bits: int)
  {
    (bits / 0x80_0000) % 0x100 == 0xFF && bits % 0x80_0000 != 0
  }

  /** `Float.floatToIntBits` of the float with raw bits `bits`: every NaN collapses to the canonical one. */
  function FloatToIntBits(bits: int): (r: int)
    ensures IsFloatNaN(bits) ==> r == 0x7FC0_0000
    ensures !IsFloatNaN(bits) ==> r == bits
  {
    if IsFloatNaN(bits) then 0x7FC0_0000 else bits
  }

  /** A double bit pattern (as an unsigned 64-bit value) that encodes a NaN. */
  predicate IsDoubleNaN(bits: int)
  {
    (bits / 0x10_0000_0000_0000) % 0x800 == 0x7FF && bits % 0x10_0000_0000_0000 != 0
  }

  /** `Double.doubleToLongBits` of the double with raw bits `bits`. */
  function DoubleToLongBits(bits: int): (r: int)
    ensures IsDoubleNaN(bits) ==> r == 0x7FF8_0000_0000_0000
    ensures !IsDoubleNaN(bits) ==> r == bits
  {
    if IsDoubleNaN(bits) then 0x7FF8_0000_0000_0000 else bits
  }

  function Pow2(n: nat): (r: nat)
    ensures r >= 1
  {
    if n == 0 then 1 else 2 * Pow2(n - 1)
  }

  /** Clamping into the `int` range, as narrowing from floating point saturates. */
  function SaturateInt(x: int): (r: int32)
    ensures IsInt(x) ==> r == x
    ensures x < -TWO_31 ==> r == -TWO_31
    ensures x >= TWO_31 ==> r == TWO_31 - 1
  {
    if x < -TWO_31 then -TWO_31 else if x >= TWO_31 then TWO_31 - 1 else x
  }

  /**
   * The `int` a finite value `(-1)^neg * m * 2^e` narrows to: rounded toward
   * zero, or toward negative infinity when `floor`, then saturated.
   */
  function ScaledToInt(neg: bool, m: nat, e: int, floor: bool): int32
  {
    var q := if e >= 0 then m * Pow2(e) else m / Pow2(-e);
    var exact := e >= 0 || m % Pow2(-e) == 0;
    SaturateInt(if !neg then q else if floor && !exact then -q - 1 else -q)
  }

  /**
   * `(int) f` for the float with raw bits `bits` (section 5.1.3 of the Java
   * Language Specification): NaN gives 0, infinities and values out of range
   * saturate, and everything else is rounded toward zero.
   */
  function FloatToInt(bits: int): (r: int32)
    ensures IsFloatNaN(bits) ==> r == 0
  {
    var neg := (bits / TWO_31) % 2 == 1;
    var e := (bits / 0x80_0000) % 0x100;
    var m := bits % 0x80_0000;
    if e == 0xFF then (if m != 0 then 0 else if neg then -TWO_31 else TWO_31 - 1)
    else if e == 0 then ScaledToInt(neg, m, -149, false)
    else ScaledToInt(neg, m + 0x80_0000, e - 150, false)
  }

  /**
   * `(int) d` for the double with raw bits `bits`, or `(int) Math.floor(d)`
   * when `floor`: NaN gives 0 and out-of-range values saturate.
   */
  function DoubleToInt(bits: int, floor: bool): (r: int32)
    ensures IsDoubleNaN(bits) ==> r == 0
  {
    var neg := (bits / TWO_63) % 2 == 1;
    var e := (bits / 0x10_0000_0000_0000) % 0x800;
    var m := bits % 0x10_0000_0000_0000;
    if e == 0x7FF then (if m != 0 then 0 else if neg then -TWO_31 else TWO_31 - 1)
    else if e == 0 then ScaledToInt(neg, m, -1074, floor)
    else ScaledToInt(neg, m + 0x10_0000_0000_0000, e - 1075, floor)
  }

  /** `DataOutput.writeShort`/`writeInt`/`writeLong`: two's complement, big-endian. */
  function ShortBytes(v: int): seq<u8> { BigEndian(v, 2) }
  function IntBytes(v: int): seq<u8> { BigEndian(v, 4) }
  function LongBytes(v: int): seq<u8> { BigEndian(v, 8) }

  /** `DataInput.readShort`/`readInt`/`readLong` of exactly 2, 4 or 8 bytes. */
  function ShortOf(bs: seq<u8>): int
    requires |bs| == 2
  {
    Signed(FromBigEndian(bs), TWO_15)
  }

  function IntOf(bs: seq<u8>): int
    requires |bs| == 4
  {
    Signed(FromBigEndian(bs), TWO_31)
  }

  function LongOf(bs: seq<u8>): int
    requires |bs| == 8
  {
    Signed(FromBigEndian(bs), TWO_63)
  }

  /** `DataInput.readUnsignedShort`. */
  function UnsignedShortOf(bs: seq<u8>): int
    requires |bs| == 2
  {
    FromBigEndian(bs)
  }

  lemma {:induction false} ShortRoundTrip(v: int)
    requires IsShort(v)
    ensures ShortOf(ShortBytes(v)) == v
  {
    BigEndianRoundTrip(v, 2);
    Pow256Values();
  }

  lemma {:induction false} IntRoundTrip(v: int)
    requires IsInt(v)
    ensures IntOf(IntBytes(v)) == v
    ensures IsInt(IntOf(IntBytes(v)))
  {
    BigEndianRoundTrip(v, 4);
    Pow256Values();
  }

  lemma {:induction false} LongRoundTrip(v: int)
    requires IsLong(v)
    ensures LongOf(LongBytes(v)) == v
  {
    BigEndianRoundTrip(v, 8);
    Pow256Values();
  }

  lemma {:induction false} UnsignedShortRoundTrip(v: int)
    requires 0 <= v < TWO_16
    ensures UnsignedShortOf(ShortBytes(v)) == v
  {
    BigEndianRoundTrip(v, 2);
    Pow256Values();
  }

  /** Every value `readInt` produces is a Java `int`. */
  lemma IntOfRange(bs: seq<u8>)
    requires |bs| == 4
    ensures IsInt(IntOf(bs))
  {
    FromBigEndianBound(bs);
    Pow256Values();
  }

  lemma ShortOfRange(bs: seq<u8>)
    requires |bs| == 2
    ensures IsShort(ShortOf(bs))
  {
    FromBigEndianBound(bs);
    Pow256Values();
  }

  lemma LongOfRange(bs: seq<u8>)
    requires |bs| == 8
    ensures IsLong(LongOf(bs))
  {
    FromBigEndianBound(bs);
    Pow256Values();
  }
}
