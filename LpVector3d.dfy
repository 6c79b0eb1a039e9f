/**
 * `LpVector3d`, the low-precision vector encoding of Minecraft 1.21.9, at
 * the byte level (its reader takes two unsigned bytes and an unsigned int
 * where its writer puts a little-endian short and an int, so the token
 * stream cannot carry it). The double arithmetic of `sanitize`, `pack` and
 * `unpack` is not modelled: a vector is taken after quantisation, as a
 * scale and three 15-bit fields.
 *
 * The 48-bit layout: a 3-bit header in bits 0-2, x in bits 3-17, y in
 * 18-32, z in 33-47. The header is the scale when it fits in two bits;
 * otherwise it is the scale's low two bits with bit 2 set, and the rest of
 * the scale follows as a VarInt.
 */
module LpVector3d {
  import opened Wrappers
  import opened JavaInts

  /** `(1 << 15) - 2`: the largest field `pack` produces and `unpack` reads. */
  const MAX_FIELD: int := 0x7FFE
  const TWO_48: int := 0x1_0000_0000_0000

  datatype Error = Exhausted | VarIntTooBig

  /**
   * A vector after quantisation: the zero vector (its largest component was
   * below `ABS_MIN_VALUE`), or `scale`, the ceiling of the largest absolute
   * component, with each component packed into a 15-bit field.
   */
  datatype Quantized = Zero | Scaled(scale: int, x: int, y: int, z: int)

  /**
   * What the writer's front end produces: `pack` yields fields in
   * [0, 2^15-2], and `ceilLong` of a sanitized non-zero maximum is at least
   * 1 and, since `sanitize` clamps to `ABS_MAX_VALUE` (below 2^34), leaves
   * `scale >> 2` within 32 bits.
   */
  predicate Valid(q: Quantized)
  {
    q.Scaled? ==>
      1 <= q.scale && q.scale / 4 < TWO_32
      && 0 <= q.x <= MAX_FIELD && 0 <= q.y <= MAX_FIELD && 0 <= q.z <= MAX_FIELD
  }

  // ---- VarInt bytes ----

  /** `writeVarInt` of an int whose 32 bits, read unsigned, are `u`: seven bits per byte, low group first, the top bit set on every byte but the last. */
  function VarIntBytes(u: nat): (r: seq<u8>)
    decreases u
  {
    if u < 0x80 then [u] else [u % 0x80 + 0x80] + VarIntBytes(u / 0x80)
  }

  /** The rest of a VarInt from its `i`-th byte on: at most five bytes in all, a continuation bit on the fifth is refused. */
  function ReadVarIntFrom(s: seq<u8>, i: nat): Result<(nat, seq<u8>), Error>
    requires i < 5
    decreases 5 - i
  {
    if s == [] then Err(Exhausted)
    else if s[0] < 0x80 then Ok((s[0], s[1..]))
    else if i == 4 then (if |s| == 1 then Err(Exhausted) else Err(VarIntTooBig))
    else
      var r :- ReadVarIntFrom(s[1..], i + 1);
      Ok((s[0] - 0x80 + 0x80 * r.0, r.1))
  }

  /** `readVarInt() & 0xFFFFFFFFL`: the 32 bits of the int read, unsigned. */
  function ReadVarInt(s: seq<u8>): Result<(nat, seq<u8>), Error>
  {
    var r :- ReadVarIntFrom(s, 0);
    Ok((r.0 % TWO_32, r.1))
  }

  function Pow128(n: nat): (r: nat)
    ensures r >= 1
  {
    if n == 0 then 1 else 0x80 * Pow128(n - 1)
  }

  lemma {:induction false} VarIntFromRoundTrip(u: nat, i: nat, rest: seq<u8>)
    requires i < 5 && u < Pow128(5 - i)
    ensures ReadVarIntFrom(VarIntBytes(u) + rest, i) == Ok((u, rest))
    decreases u
  {
    var s := VarIntBytes(u) + rest;
    if u < 0x80 {
      assert s[1..] == rest;
    } else {
      assert Pow128(5 - i) == 0x80 * Pow128(4 - i);
      assert i < 4;
      assert u / 0x80 < Pow128(4 - i);
      assert s[1..] == VarIntBytes(u / 0x80) + rest;
      VarIntFromRoundTrip(u / 0x80, i + 1, rest);
    }
  }

  lemma Pow128Five()
    ensures Pow128(5) == 0x8_0000_0000
  {
    assert Pow128(1) == 0x80;
    assert Pow128(2) == 0x4000;
    assert Pow128(3) == 0x20_0000;
    assert Pow128(4) == 0x1000_0000;
  }

  /** A VarInt of any 32-bit pattern is read back exactly. */
  lemma VarIntRoundTrip(u: nat, rest: seq<u8>)
    requires u < TWO_32
    ensures ReadVarInt(VarIntBytes(u) + rest) == Ok((u, rest))
  {
    Pow128Five();
    VarIntFromRoundTrip(u, 0, rest);
    var r := ReadVarIntFrom(VarIntBytes(u) + rest, 0);
    assert r == Ok((u, rest));
    ModUnique(u, TWO_32, 0, u);
  }

  // ---- The 48-bit layout ----

  /** The scale does not fit the two header bits. */
  predicate Large(scale: int)
  {
    scale >= 4
  }

  /** The header: the scale itself, or its low two bits with the continuation bit set. */
  function Header(scale: int): int
  {
    if Large(scale) then scale % 4 + 4 else scale
  }

  /** `mul | packedX << 3 | packedY << 18 | packedZ << 33` for fields that do not overlap. */
  function Bits(q: Quantized): int
    requires q.Scaled? && Valid(q)
  {
    Header(q.scale) + 8 * q.x + 0x4_0000 * q.y + 0x2_0000_0000 * q.z
  }

  /** `unpack`'s field: the 15 bits, clamped to at most 2^15-2. */
  function Field(bits: int): int
  {
    var f := bits % TWO_15;
    if f < MAX_FIELD then f else MAX_FIELD
  }

  /** `write`: one 0 byte for the zero vector; else the low 16 bits as a little-endian short, bits 16-47 as a big-endian int, then the VarInt of `scale >> 2` when the scale is large. */
  function Write(q: Quantized): (r: seq<u8>)
    requires Valid(q)
  {
    if q.Zero? then [0]
    else
      Head(Bits(q)) + if Large(q.scale) then VarIntBytes(q.scale / 4) else []
  }

  /** `writeShortLE((short) bits)` then `writeInt((int) (bits >> 16))`. */
  function Head(bits: int): seq<u8>
  {
    [bits % 0x100, (bits / 0x100) % 0x100] + BigEndian(bits / 0x1_0000, 4)
  }

  /** `read`: a first byte of 0 is the zero vector; otherwise 48 bits, and the VarInt when bit 2 is set. */
  function Read(s: seq<u8>): Result<(Quantized, seq<u8>), Error>
  {
    if s == [] then Err(Exhausted)
    else if s[0] == 0 then Ok((Zero, s[1..]))
    else if |s| < 6 then Err(Exhausted)
    else ReadScaled(s[0], Bits48(s), s[6..])
  }

  /** The 48 bits of a non-zero vector: `readUnsignedByte() | readUnsignedByte() << 8 | readUnsignedInt() << 16`. */
  function Bits48(s: seq<u8>): int
    requires |s| >= 6
  {
    s[0] + s[1] * 0x100 + FromBigEndian(s[2..6]) * 0x1_0000
  }

  /** The non-zero path once the 48 bits are in: the two low header bits, plus the VarInt shifted by 2 when bit 2 is set. */
  function ReadScaled(b0: u8, bits: int, tail: seq<u8>): Result<(Quantized, seq<u8>), Error>
  {
    var low := b0 % 4;
    var fields := Scaled(0, Field(bits / 8), Field(bits / 0x4_0000), Field(bits / 0x2_0000_0000));
    if (b0 / 4) % 2 == 1 then
      var more :- ReadVarInt(tail);
      Ok((fields.(scale := low + 4 * more.0), more.1))
    else
      Ok((fields.(scale := low), tail))
  }

  // ---- Properties ----

  /** A first byte of 0 decodes to the zero vector and consumes nothing more; the zero vector is written as that one byte. */
  lemma ZeroFastPath(rest: seq<u8>)
    ensures Read([0] + rest) == Ok((Zero, rest))
    ensures Write(Zero) == [0]
  {
    assert ([0] + rest)[1..] == rest;
  }

  /** The header's low three bits: the scale when it fits, else its low two bits and the continuation bit; the VarInt follows exactly when the scale is large. */
  lemma HeaderRules(q: Quantized)
    requires q.Scaled? && Valid(q)
    ensures Bits(q) % 8 == Header(q.scale) && 1 <= Header(q.scale) < 8
    ensures (Header(q.scale) / 4 == 1) <==> Large(q.scale)
    ensures Header(q.scale) % 4 == q.scale % 4
    ensures |Write(q)| == 6 + (if Large(q.scale) then |VarIntBytes(q.scale / 4)| else 0)
  {
    var bits := Bits(q);
    ModUnique(bits, 8, q.x + 0x8000 * q.y + 0x4000_0000 * q.z, Header(q.scale));
  }

  /** On the non-zero path the first byte carries the header in its low three bits, so it is never 0 and cannot be mistaken for the zero vector. */
  lemma FirstByte(q: Quantized)
    requires q.Scaled? && Valid(q)
    ensures Write(q)[0] != 0
    ensures Write(q)[0] % 4 == q.scale % 4
    ensures (Write(q)[0] / 4) % 2 == 1 <==> Large(q.scale)
  {
    var bits := Bits(q);
    HeaderRules(q);
    LowBits(bits, Header(q.scale));
    assert Write(q)[0] == Head(bits)[0] == bits % 0x100;
  }

  /** The low byte of a number keeps its low three bits. */
  lemma LowBits(bits: int, h: int)
    requires 0 <= h < 8 && bits % 8 == h
    ensures (bits % 0x100) % 4 == h % 4 && (bits % 0x100) / 4 % 2 == h / 4
    ensures h != 0 ==> bits % 0x100 != 0
  {
    var hi := bits / 0x100;
    var b0 := bits % 0x100;
    ModUnique(bits, 8, 0x20 * hi + b0 / 8, b0 % 8);
    assert b0 % 8 == h;
    ModUnique(b0, 4, 2 * (b0 / 8) + h / 4, h % 4);
    ModUnique(b0 / 4, 2, b0 / 8, h / 4);
  }

  /** Every field `read` produces is at most 2^15-2. */
  lemma ReadFieldsBounded(s: seq<u8>)
    requires Read(s).Ok? && Read(s).value.0.Scaled?
    ensures var q := Read(s).value.0; 0 <= q.x <= MAX_FIELD && 0 <= q.y <= MAX_FIELD && 0 <= q.z <= MAX_FIELD
  {
  }

  /** The 48 bits of a valid vector, cut into its fields again. */
  lemma BitsFields(q: Quantized)
    requires q.Scaled? && Valid(q)
    ensures 0 <= Bits(q) < TWO_48
    ensures Bits(q) % 8 == Header(q.scale)
    ensures Field(Bits(q) / 8) == q.x
    ensures Field(Bits(q) / 0x4_0000) == q.y
    ensures Field(Bits(q) / 0x2_0000_0000) == q.z
  {
    var bits := Bits(q);
    ModUnique(bits, 8, q.x + 0x8000 * q.y + 0x4000_0000 * q.z, Header(q.scale));
    ModUnique(bits / 8, TWO_15, q.y + 0x8000 * q.z, q.x);
    ModUnique(bits, 0x4_0000, q.y + 0x8000 * q.z, Header(q.scale) + 8 * q.x);
    ModUnique(bits / 0x4_0000, TWO_15, q.z, q.y);
    ModUnique(bits, 0x2_0000_0000, q.z, Header(q.scale) + 8 * q.x + 0x4_0000 * q.y);
    ModUnique(q.z, TWO_15, 0, q.z);
  }

  /** The little-endian short and the big-endian int put the 48 bits back together. */
  lemma BytesReassemble(bits: int)
    requires 0 <= bits < TWO_48
    ensures |Head(bits)| == 6 && Bits48(Head(bits)) == bits
  {
    var h := Head(bits);
    assert h[2..6] == BigEndian(bits / 0x1_0000, 4);
    BigEndianRoundTrip(bits / 0x1_0000, 4);
    Pow256Values();
    var hi := bits / 0x1_0000;
    ModUnique(hi, 0x1_0000_0000, 0, hi);
    var b1 := (bits / 0x100) % 0x100;
    ModUnique(bits / 0x100, 0x100, hi, b1);
  }

  /** After the first six bytes of a non-zero vector come the VarInt, if any, and then whatever followed. */
  lemma Frame(q: Quantized, rest: seq<u8>)
    requires q.Scaled? && Valid(q)
    ensures var s := Write(q) + rest;
      |s| >= 6 && s[0] == Write(q)[0]
      && Bits48(s) == Bits(q)
      && s[6..] == (if Large(q.scale) then VarIntBytes(q.scale / 4) else []) + rest
  {
    var bits := Bits(q);
    var tail := (if Large(q.scale) then VarIntBytes(q.scale / 4) else []) + rest;
    BitsFields(q);
    BytesReassemble(bits);
    SplitAfterHead(Head(bits), tail);
    assert Write(q) + rest == Head(bits) + tail;
  }

  /** A first byte other than 0 sends `read` down the 48-bit path. */
  lemma ReadNonZero(s: seq<u8>)
    requires |s| >= 6 && s[0] != 0
    ensures Read(s) == ReadScaled(s[0], Bits48(s), s[6..])
  {
  }

  /** The first six bytes of a head followed by more are the head's. */
  lemma SplitAfterHead(h: seq<u8>, tail: seq<u8>)
    requires |h| == 6
    ensures var s := h + tail; s[0] == h[0] && Bits48(s) == Bits48(h) && s[6..] == tail
  {
    var s := h + tail;
    assert s[1] == h[1] && s[2..6] == h[2..6];
  }

  /** What `write` puts on the wire `read` takes back, scale and fields alike. */
  lemma RoundTrip(q: Quantized, rest: seq<u8>)
    requires Valid(q)
    ensures Read(Write(q) + rest) == Ok((q, rest))
  {
    if q.Zero? {
      ZeroFastPath(rest);
    } else {
      var s := Write(q) + rest;
      FirstByte(q);
      Frame(q, rest);
      ReadNonZero(s);
      ScaledRoundTrip(q, s[0], rest);
    }
  }

  lemma ScaledRoundTrip(q: Quantized, b0: u8, rest: seq<u8>)
    requires q.Scaled? && Valid(q)
    requires b0 % 4 == q.scale % 4 && ((b0 / 4) % 2 == 1 <==> Large(q.scale))
    ensures ReadScaled(b0, Bits(q), (if Large(q.scale) then VarIntBytes(q.scale / 4) else []) + rest) == Ok((q, rest))
  {
    BitsFields(q);
    if Large(q.scale) {
      VarIntRoundTrip(q.scale / 4, rest);
      assert q.scale == q.scale % 4 + 4 * (q.scale / 4);
    } else {
      ModUnique(q.scale, 4, 0, q.scale);
      assert [] + rest == rest;
    }
  }
}
