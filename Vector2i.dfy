/**
 * `Vector2i`: two Java ints packed into one long, x in the low half and z
 * in the high half, and its packet codec as that single long.
 */
module Vector2i {
  import opened Wrappers
  import opened JavaInts
  import P = PacketStream

  datatype Vector2i = Vector2i(x: int32, z: int32)

  /** `asLong`: the 32 bits of x, unsigned, in the low half and those of z in the high half. */
  function AsLong(v: Vector2i): (r: int64)
    ensures r % TWO_32 == v.x % TWO_32
    ensures (r / TWO_32) % TWO_32 == v.z % TWO_32
  {
    var lo := v.x % TWO_32;
    var hi := v.z % TWO_32;
    assert 0 <= hi * TWO_32 + lo < TWO_64;
    var r := Wrap64(hi * TWO_32 + lo);
    HalvesOf(r, hi, lo);
    r
  }

  /** `fromLong(l)`: x is `(int) l`, z is `(int) (l >> 32)`. */
  function FromLong(l: int64): (r: Vector2i)
    ensures r.x % TWO_32 == l % TWO_32
    ensures r.z % TWO_32 == (l / TWO_32) % TWO_32
  {
    Vector2i(Wrap32(l), Wrap32(l / TWO_32))
  }

  /** A long whose two halves are `hi` and `lo`, up to a multiple of 2^64. */
  lemma HalvesOf(r: int, hi: int, lo: int)
    requires 0 <= hi < TWO_32 && 0 <= lo < TWO_32
    requires (r - (hi * TWO_32 + lo)) % TWO_64 == 0
    ensures r % TWO_32 == lo && (r / TWO_32) % TWO_32 == hi
  {
    var k := (r - (hi * TWO_32 + lo)) / TWO_64;
    assert r == hi * TWO_32 + lo + k * TWO_64;
    assert r == (hi + k * TWO_32) * TWO_32 + lo;
    assert r / TWO_32 == hi + k * TWO_32;
  }

  /** Two ints agree when their 32 bits do. */
  lemma SameBits(a: int32, b: int32)
    requires a % TWO_32 == b % TWO_32
    ensures a == b
  {
    assert IsInt(a) && IsInt(b);
    if a >= 0 { ModUnique(a, TWO_32, 0, a); } else { ModUnique(a, TWO_32, -1, a + TWO_32); }
    if b >= 0 { ModUnique(b, TWO_32, 0, b); } else { ModUnique(b, TWO_32, -1, b + TWO_32); }
  }

  /** The high half `l >> 32` of a long is an int. */
  lemma HighHalf(l: int64)
    ensures IsInt(l / TWO_32)
  {
    assert IsLong(l);
    var q := l / TWO_32;
    assert l == q * TWO_32 + l % TWO_32;
    if q >= TWO_31 {
      MulMono(TWO_31, q, TWO_32);
    } else if q < -TWO_31 {
      MulMono(q + 1, -TWO_31, TWO_32);
      MulDistrib(q, 1, TWO_32);
    }
  }

  lemma MulMono(a: int, b: int, c: int)
    requires a <= b && c >= 0
    ensures a * c <= b * c
  {
    MulSub(b, a, c);
  }

  /** `fromLong(v.asLong())` gives back v. */
  lemma FromAsLong(v: Vector2i)
    ensures FromLong(AsLong(v)) == v
  {
    var r := FromLong(AsLong(v));
    SameBits(r.x, v.x);
    SameBits(r.z, v.z);
  }

  /** `fromLong(l).asLong()` gives back l, for every long. */
  lemma AsFromLong(l: int64)
    ensures AsLong(FromLong(l)) == l
  {
    var r := AsLong(FromLong(l));
    var q := r / TWO_32;
    var ql := l / TWO_32;
    assert r % TWO_32 == l % TWO_32;
    assert q % TWO_32 == ql % TWO_32;
    HighHalf(r);
    HighHalf(l);
    SameBits(q, ql);
    assert r == q * TWO_32 + r % TWO_32;
  }

  /** `read`: one long, unpacked with `fromLong`. */
  function Read(s: seq<P.Token>): Result<P.Read<Vector2i>, P.StreamError>
  {
    var l :- P.ReadLong(s);
    Ok(P.Read(FromLong(l.value), l.rest))
  }

  /** `write`: `asLong` as one long. */
  function Write(v: Vector2i): seq<P.Token>
  {
    [P.Long(AsLong(v))]
  }

  /** What `write` puts on the wire `read` takes back. */
  lemma ReadWrite(v: Vector2i, rest: seq<P.Token>)
    ensures Read(Write(v) + rest) == Ok(P.Read(v, rest))
  {
    assert (Write(v) + rest)[1..] == rest;
    FromAsLong(v);
  }

  /** Every long on the wire is some vector's packing, so `read` then `write` restores the token. */
  lemma WriteRead(l: int64, rest: seq<P.Token>)
    ensures Read([P.Long(l)] + rest).Ok?
    ensures Write(Read([P.Long(l)] + rest).value.value) == [P.Long(l)]
  {
    assert ([P.Long(l)] + rest)[1..] == rest;
    AsFromLong(l);
  }
}
