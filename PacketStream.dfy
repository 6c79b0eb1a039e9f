/**
 * The `PacketWrapper` buffer as a queue of typed tokens. Each `write*`
 * primitive appends one token and the matching `read*` takes it from the
 * front, so every read/write pair is inverse by construction; the byte
 * encodings behind the primitives are not part of this module. Protocol
 * versions are compared by their protocol numbers.
 */
module PacketStream {
  import opened Wrappers
  import opened JavaInts
  import opened ModifiedUtf8
  import N = NbtTypes

  const V_1_8: int := 47
  const V_1_12: int := 335
  const V_1_14: int := 477
  const V_1_17: int := 755
  const V_1_19_3: int := 761
  const V_1_20_3: int := 765
  const V_1_20_5: int := 766
  const V_1_21_2: int := 768
  const V_1_21_9: int := 773

  /** A sound event: its identifier, an optional fixed range (float bits), and whether it is a `StaticSound`. */
  datatype Sound = Sound(key: JString, range: Option<int>, isStatic: bool)

  /** Structures whose wire format lives outside this model; each travels as one token. */
  datatype Structure = ParticleData | BlockParticleList | RgbColor

  datatype Token =
    | Bool(b: bool)
    | Byte(byteValue: int8)           // `writeByte`: the low 8 bits, read back signed
    | Int(intValue: int32)
    | Long(longValue: int64)
    | VarInt(varInt: int32)
    | VarLong(varLong: int64)
    | Float(bits: int)                // raw IEEE 754 single-precision bits
    | Double(bits: int)               // raw IEEE 754 double-precision bits
    | Str(s: JString)
    | Ident(id: JString)              // `writeIdentifier` / `ResourceLocation.write`
    | Uuid(msb: int, lsb: int)
    | BlockPos(x: int32, y: int32, z: int32) // `writeBlockPosition`; its bit packing is not part of this model
    | Nbt(tag: N.Tag)                 // `writeNBT` / `writeNBTRaw`
    | Mapped(key: JString)            // `writeMappedEntity`: a registry entry
    | SoundEvent(sound: Sound)        // `Sound.write`
    | Struct(kind: Structure, payload: int)

  datatype StreamError =
    | Exhausted               // a read past the end of the buffer
    | Misread                 // the next token was written by another primitive
    | TooLong(max: int)       // `readString(max)` on a longer string
    | NegativeSize(size: int) // `readList` with a negative element count
    | NoSuchValue(index: int) // `values()[index]` out of range
    | NotAString              // a cast of a raw tag to `NBTString` that fails
    | NotACompound            // `readNBT` on a raw tag that is not a compound

  /** A value read from the front of the buffer, with what is left after it. */
  datatype Read<+T> = Read(value: T, rest: seq<Token>)

  type Reader<T> = seq<Token> -> Result<Read<T>, StreamError>

  function ReadToken(s: seq<Token>): Result<Read<Token>, StreamError>
  {
    if s == [] then Err(Exhausted) else Ok(Read(s[0], s[1..]))
  }

  function ReadBool(s: seq<Token>): Result<Read<bool>, StreamError>
  {
    var t :- ReadToken(s);
    if t.value.Bool? then Ok(Read(t.value.b, t.rest)) else Err(Misread)
  }

  /** `readByte`: a signed byte. */
  function ReadByte(s: seq<Token>): Result<Read<int8>, StreamError>
  {
    var t :- ReadToken(s);
    if t.value.Byte? then Ok(Read(t.value.byteValue, t.rest)) else Err(Misread)
  }

  /** `writeByte(v)`: only the low 8 bits of `v` travel. */
  function WriteByte(v: int): seq<Token>
  {
    [Byte(ToByte(v))]
  }

  function ReadInt(s: seq<Token>): Result<Read<int32>, StreamError>
  {
    var t :- ReadToken(s);
    if t.value.Int? then Ok(Read(t.value.intValue, t.rest)) else Err(Misread)
  }

  function ReadLong(s: seq<Token>): Result<Read<int64>, StreamError>
  {
    var t :- ReadToken(s);
    if t.value.Long? then Ok(Read(t.value.longValue, t.rest)) else Err(Misread)
  }

  function ReadVarInt(s: seq<Token>): Result<Read<int32>, StreamError>
  {
    var t :- ReadToken(s);
    if t.value.VarInt? then Ok(Read(t.value.varInt, t.rest)) else Err(Misread)
  }

  function ReadVarLong(s: seq<Token>): Result<Read<int64>, StreamError>
  {
    var t :- ReadToken(s);
    if t.value.VarLong? then Ok(Read(t.value.varLong, t.rest)) else Err(Misread)
  }

  function ReadFloat(s: seq<Token>): Result<Read<int>, StreamError>
  {
    var t :- ReadToken(s);
    if t.value.Float? then Ok(Read(t.value.bits, t.rest)) else Err(Misread)
  }

  function ReadDouble(s: seq<Token>): Result<Read<int>, StreamError>
  {
    var t :- ReadToken(s);
    if t.value.Double? then Ok(Read(t.value.bits, t.rest)) else Err(Misread)
  }

  /** `readString(max)`: a string of more than `max` characters is refused. */
  function ReadString(s: seq<Token>, max: int): Result<Read<JString>, StreamError>
  {
    var t :- ReadToken(s);
    if !t.value.Str? then Err(Misread)
    else if |t.value.s| > max then Err(TooLong(max))
    else Ok(Read(t.value.s, t.rest))
  }

  function ReadIdent(s: seq<Token>): Result<Read<JString>, StreamError>
  {
    var t :- ReadToken(s);
    if t.value.Ident? then Ok(Read(t.value.id, t.rest)) else Err(Misread)
  }

  function ReadUuid(s: seq<Token>): Result<Read<(int, int)>, StreamError>
  {
    var t :- ReadToken(s);
    if t.value.Uuid? then Ok(Read((t.value.msb, t.value.lsb), t.rest)) else Err(Misread)
  }

  function ReadBlockPos(s: seq<Token>): Result<Read<(int32, int32, int32)>, StreamError>
  {
    var t :- ReadToken(s);
    if t.value.BlockPos? then Ok(Read((t.value.x, t.value.y, t.value.z), t.rest)) else Err(Misread)
  }

  /** `readNBTRaw`: a tag of any kind. */
  function ReadNbt(s: seq<Token>): Result<Read<N.Tag>, StreamError>
  {
    var t :- ReadToken(s);
    if t.value.Nbt? then Ok(Read(t.value.tag, t.rest)) else Err(Misread)
  }

  /** `readNBT`: the raw tag, which must be a compound; its entries. */
  function ReadCompound(s: seq<Token>): Result<Read<seq<N.Entry>>, StreamError>
  {
    var t :- ReadNbt(s);
    if t.value.Compound? then Ok(Read(t.value.entries, t.rest)) else Err(NotACompound)
  }

  function ReadMapped(s: seq<Token>): Result<Read<JString>, StreamError>
  {
    var t :- ReadToken(s);
    if t.value.Mapped? then Ok(Read(t.value.key, t.rest)) else Err(Misread)
  }

  function ReadSound(s: seq<Token>): Result<Read<Sound>, StreamError>
  {
    var t :- ReadToken(s);
    if t.value.SoundEvent? then Ok(Read(t.value.sound, t.rest)) else Err(Misread)
  }

  function ReadStruct(s: seq<Token>, kind: Structure): Result<Read<int>, StreamError>
  {
    var t :- ReadToken(s);
    if t.value.Struct? && t.value.kind == kind then Ok(Read(t.value.payload, t.rest)) else Err(Misread)
  }

  /** `readOptional(reader)`: a presence flag, then the value when present. */
  function ReadOptional<T>(s: seq<Token>, reader: Reader<T>): Result<Read<Option<T>>, StreamError>
  {
    var present :- ReadBool(s);
    if present.value then
      var x :- reader(present.rest);
      Ok(Read(Some(x.value), x.rest))
    else
      Ok(Read(None, present.rest))
  }

  /** `writeOptional(value, writer)`: `null` becomes a lone `false`. */
  function WriteOptional<T>(x: Option<T>, writer: T -> seq<Token>): seq<Token>
  {
    if x.Some? then [Bool(true)] + writer(x.value) else [Bool(false)]
  }

  /** `n` values read one after another. */
  function ReadItems<T>(s: seq<Token>, n: nat, reader: Reader<T>): Result<Read<seq<T>>, StreamError>
    decreases n
  {
    if n == 0 then Ok(Read([], s))
    else
      var x :- reader(s);
      var xs :- ReadItems(x.rest, n - 1, reader);
      Ok(Read([x.value] + xs.value, xs.rest))
  }

  /** `readList(reader)`: a VarInt count, then that many values. */
  function ReadList<T>(s: seq<Token>, reader: Reader<T>): Result<Read<seq<T>>, StreamError>
  {
    var size :- ReadVarInt(s);
    if size.value < 0 then Err(NegativeSize(size.value))
    else ReadItems(size.rest, size.value, reader)
  }

  function WriteItems<T>(xs: seq<T>, writer: T -> seq<Token>): seq<Token>
    decreases |xs|
  {
    if xs == [] then [] else writer(xs[0]) + WriteItems(xs[1..], writer)
  }

  /** `writeList(list, writer)`: the count as a VarInt, then each value. */
  function WriteList<T>(xs: seq<T>, writer: T -> seq<Token>): seq<Token>
  {
    [VarInt(Wrap32(|xs|))] + WriteItems(xs, writer)
  }

  /** `reader` takes back exactly what `writer` wrote, for every value `valid` admits, whatever follows. */
  ghost predicate Inverse<T(!new)>(reader: Reader<T>, writer: T -> seq<Token>, valid: T -> bool)
  {
    forall x, rest :: valid(x) ==> reader(writer(x) + rest) == Ok(Read(x, rest))
  }

  /** Four token runs written one after another, regrouped to put the rest of the buffer after the last. */
  lemma Reassociate(a: seq<Token>, b: seq<Token>, c: seq<Token>, d: seq<Token>, rest: seq<Token>)
    ensures (a + (b + (c + d))) + rest == a + (b + (c + (d + rest)))
  {
  }

  /** An optional value round-trips when the value itself does. */
  lemma OptionalRoundTrip<T(!new)>(reader: Reader<T>, writer: T -> seq<Token>, valid: T -> bool, x: Option<T>, rest: seq<Token>)
    requires Inverse(reader, writer, valid)
    requires x.Some? ==> valid(x.value)
    ensures ReadOptional(WriteOptional(x, writer) + rest, reader) == Ok(Read(x, rest))
  {
    if x.Some? {
      assert (WriteOptional(x, writer) + rest)[1..] == writer(x.value) + rest;
    } else {
      assert (WriteOptional(x, writer) + rest)[1..] == rest;
    }
  }

  /** A list round-trips when each of its values does: the count comes back first, then each value in order. */
  lemma {:induction false} ItemsRoundTrip<T(!new)>(reader: Reader<T>, writer: T -> seq<Token>, valid: T -> bool, xs: seq<T>, rest: seq<Token>)
    requires Inverse(reader, writer, valid)
    requires forall i :: 0 <= i < |xs| ==> valid(xs[i])
    ensures ReadItems(WriteItems(xs, writer) + rest, |xs|, reader) == Ok(Read(xs, rest))
    decreases |xs|
  {
    if xs != [] {
      var tail := WriteItems(xs[1..], writer) + rest;
      assert WriteItems(xs, writer) + rest == writer(xs[0]) + tail;
      assert valid(xs[0]);
      assert reader(writer(xs[0]) + tail) == Ok(Read(xs[0], tail));
      ItemsRoundTrip(reader, writer, valid, xs[1..], rest);
      assert ReadItems(tail, |xs| - 1, reader) == Ok(Read(xs[1..], rest));
      assert [xs[0]] + xs[1..] == xs;
    } else {
      assert WriteItems(xs, writer) + rest == rest;
    }
  }

  lemma ListRoundTrip<T(!new)>(reader: Reader<T>, writer: T -> seq<Token>, valid: T -> bool, xs: seq<T>, rest: seq<Token>)
    requires Inverse(reader, writer, valid)
    requires |xs| < TWO_31  // a Java list's size is an `int`
    requires forall i :: 0 <= i < |xs| ==> valid(xs[i])
    ensures ReadList(WriteList(xs, writer) + rest, reader) == Ok(Read(xs, rest))
  {
    assert (WriteList(xs, writer) + rest)[1..] == WriteItems(xs, writer) + rest;
    ItemsRoundTrip(reader, writer, valid, xs, rest);
  }

  /** `readString(max)` takes back a string of at most `max` characters, and refuses a longer one. */
  lemma StringRoundTrip(str: JString, max: int, rest: seq<Token>)
    ensures |str| <= max ==> ReadString([Str(str)] + rest, max) == Ok(Read(str, rest))
    ensures |str| > max ==> ReadString([Str(str)] + rest, max) == Err(TooLong(max))
  {
    assert ([Str(str)] + rest)[1..] == rest;
  }

  /** `writeByte` then `readByte` gives back exactly the values of a signed byte. */
  lemma ByteRoundTrip(v: int, rest: seq<Token>)
    ensures ReadByte(WriteByte(v) + rest).Ok?
    ensures ReadByte(WriteByte(v) + rest).value.rest == rest
    ensures ReadByte(WriteByte(v) + rest).value.value == v <==> IsByte(v)
  {
    assert (WriteByte(v) + rest)[1..] == rest;
  }
}
