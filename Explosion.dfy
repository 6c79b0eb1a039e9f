/**
 * The explosion packet. Its layout changed three times: the position became
 * doubles at 1.19.3; below 1.21.2 the packet carries the destroyed blocks as
 * byte offsets from the floored position, the knockback as floats and, from
 * 1.20.3, the block interaction, two particles and a sound; from 1.21.2 it
 * carries only an optional knockback, a particle and a sound, with strength,
 * block count and block particles added back at 1.21.9.
 */
module Explosion {
  import opened Wrappers
  import opened JavaInts
  import U = ModifiedUtf8
  import P = PacketStream
  import V = Vectors

  /** `BlockInteraction`, in declaration order. */
  datatype BlockInteraction = KEEP_BLOCKS | DESTROY_BLOCKS | DECAY_DESTROYED_BLOCKS | TRIGGER_BLOCKS

  const INTERACTIONS: seq<BlockInteraction> := [KEEP_BLOCKS, DESTROY_BLOCKS, DECAY_DESTROYED_BLOCKS, TRIGGER_BLOCKS]

  function Ordinal(b: BlockInteraction): (r: nat)
    ensures r < |INTERACTIONS| && INTERACTIONS[r] == b
  {
    match b
    case KEEP_BLOCKS => 0
    case DESTROY_BLOCKS => 1
    case DECAY_DESTROYED_BLOCKS => 2
    case TRIGGER_BLOCKS => 3
  }

  /** `BlockInteraction.values()[id]`, which throws outside the ordinals. */
  function InteractionOf(id: int): (r: Result<BlockInteraction, P.StreamError>)
    ensures r.Ok? <==> 0 <= id < |INTERACTIONS|
    ensures r.Ok? ==> Ordinal(r.value) == id
    ensures r.Err? ==> r.error == P.NoSuchValue(id)
  {
    if 0 <= id < |INTERACTIONS| then Ok(INTERACTIONS[id]) else Err(P.NoSuchValue(id))
  }

  /** `Sounds.INTENTIONALLY_EMPTY`. */
  const INTENTIONALLY_EMPTY: P.Sound := P.Sound(U.Literal("minecraft:intentionally_empty"), None, false)

  /**
   * Java's conversions between float and double, on bit patterns: `widen` is
   * `(double) f`, `narrow` is `(float) d`. Their IEEE rounding is not part of
   * this model, so every statement below holds whatever they are.
   */
  datatype Casts = Casts(widen: int -> int, narrow: int -> int)

  datatype Explosion = Explosion(
    position: V.Vector3d,
    strength: int,                                // float bits
    blockCount: int32,
    records: Option<seq<V.Vector3i>>,             // `null` until read or set
    knockback: Option<V.Vector3d>,
    smallParticle: int,                           // a particle's payload
    particle: int,
    blockInteraction: Option<BlockInteraction>,
    sound: P.Sound,
    blockParticles: Option<int>)                  // a weighted particle list's payload; `null` until read or set

  /** From 1.21.9 `write` dereferences the block particles, which no constructor sets. */
  predicate HasBlockParticles(version: int, f: Explosion)
  {
    version >= P.V_1_21_9 ==> f.blockParticles.Some?
  }

  /** A Java list's size is an `int`. */
  predicate Sendable(f: Explosion)
  {
    f.records.Some? ==> |f.records.value| < TWO_31
  }

  // ---------------------------------------------------------------------------
  // Position and knockback

  function ReadFloats(s: seq<P.Token>): Result<P.Read<(int, int, int)>, P.StreamError>
  {
    var x :- P.ReadFloat(s);
    var y :- P.ReadFloat(x.rest);
    var z :- P.ReadFloat(y.rest);
    Ok(P.Read((x.value, y.value, z.value), z.rest))
  }

  /** `new Vector3d(readFloat(), readFloat(), readFloat())`: three floats, widened. */
  function ReadFloatVector(c: Casts, s: seq<P.Token>): Result<P.Read<V.Vector3d>, P.StreamError>
  {
    var f :- ReadFloats(s);
    Ok(P.Read(V.Vector3d(c.widen(f.value.0), c.widen(f.value.1), c.widen(f.value.2)), f.rest))
  }

  /** Three `writeFloat((float) v.x)` calls. */
  function WriteFloatVector(c: Casts, v: V.Vector3d): seq<P.Token>
  {
    [P.Float(c.narrow(v.x)), P.Float(c.narrow(v.y)), P.Float(c.narrow(v.z))]
  }

  /** A vector after travelling as floats. */
  function Rounded(c: Casts, v: V.Vector3d): V.Vector3d
  {
    V.Vector3d(c.widen(c.narrow(v.x)), c.widen(c.narrow(v.y)), c.widen(c.narrow(v.z)))
  }

  lemma FloatVectorRoundTrip(c: Casts, v: V.Vector3d, rest: seq<P.Token>)
    ensures ReadFloatVector(c, WriteFloatVector(c, v) + rest) == Ok(P.Read(Rounded(c, v), rest))
  {
    assert (WriteFloatVector(c, v) + rest)[1..][1..][1..] == rest;
  }

  function ReadPosition(version: int, c: Casts, s: seq<P.Token>): Result<P.Read<V.Vector3d>, P.StreamError>
  {
    if version >= P.V_1_19_3 then V.ReadVector3d(s) else ReadFloatVector(c, s)
  }

  function WritePosition(version: int, c: Casts, v: V.Vector3d): seq<P.Token>
  {
    if version >= P.V_1_19_3 then V.WriteVector3d(v) else WriteFloatVector(c, v)
  }

  /** The position as the reader sees it: exact from 1.19.3, rounded through a float before. */
  function SentPosition(version: int, c: Casts, v: V.Vector3d): V.Vector3d
  {
    if version >= P.V_1_19_3 then v else Rounded(c, v)
  }

  lemma PositionRoundTrip(version: int, c: Casts, v: V.Vector3d, rest: seq<P.Token>)
    ensures ReadPosition(version, c, WritePosition(version, c, v) + rest) == Ok(P.Read(SentPosition(version, c, v), rest))
  {
    if version >= P.V_1_19_3 {
      V.Vector3dRoundTrip(v, rest);
    } else {
      FloatVectorRoundTrip(c, v, rest);
    }
  }

  // ---------------------------------------------------------------------------
  // Records: byte offsets from the floored position

  /** `toFloor`: each coordinate through `Math.floor` from 1.14, truncated toward zero before. */
  function ToFloor(version: int, p: V.Vector3d): V.Vector3i
  {
    var floor := version >= P.V_1_14;
    V.Vector3i(DoubleToInt(p.x, floor), DoubleToInt(p.y, floor), DoubleToInt(p.z, floor))
  }

  /**
   * The two roundings agree on every double whose sign bit is clear, and
   * `Math.floor` never gives more than truncation: they part only on
   * negative coordinates.
   */
  lemma FloorAgainstTruncation(bits: int)
    ensures DoubleToInt(bits, true) <= DoubleToInt(bits, false)
    ensures (bits / TWO_63) % 2 == 0 ==> DoubleToInt(bits, true) == DoubleToInt(bits, false)
  {
    var e := (bits / 0x10_0000_0000_0000) % 0x800;
    var m := bits % 0x10_0000_0000_0000;
    if e != 0x7FF {
      if e == 0 {
        ScaledMonotone((bits / TWO_63) % 2 == 1, m, -1074);
      } else {
        ScaledMonotone((bits / TWO_63) % 2 == 1, m + 0x10_0000_0000_0000, e - 1075);
      }
    }
  }

  lemma ScaledMonotone(neg: bool, m: nat, e: int)
    ensures ScaledToInt(neg, m, e, true) <= ScaledToInt(neg, m, e, false)
    ensures !neg ==> ScaledToInt(neg, m, e, true) == ScaledToInt(neg, m, e, false)
  {
  }

  /** One record: three signed bytes added to the floor, in Java `int` arithmetic. */
  function ReadRecord(s: seq<P.Token>, floor: V.Vector3i): Result<P.Read<V.Vector3i>, P.StreamError>
  {
    var x :- P.ReadByte(s);
    var y :- P.ReadByte(x.rest);
    var z :- P.ReadByte(y.rest);
    Ok(P.Read(V.Vector3i(Wrap32(x.value + floor.x), Wrap32(y.value + floor.y), Wrap32(z.value + floor.z)), z.rest))
  }

  /** `n` more records, appended to those in `acc`. */
  function ReadRecords(s: seq<P.Token>, n: nat, floor: V.Vector3i, acc: seq<V.Vector3i>): Result<P.Read<seq<V.Vector3i>>, P.StreamError>
    decreases n
  {
    if n == 0 then Ok(P.Read(acc, s))
    else
      var r :- ReadRecord(s, floor);
      ReadRecords(r.rest, n - 1, floor, acc + [r.value])
  }

  /** One record as three `writeByte` offsets; only their low 8 bits travel, so the `int` wrap of the subtraction is immaterial. */
  function WriteRecord(r: V.Vector3i, floor: V.Vector3i): seq<P.Token>
  {
    P.WriteByte(r.x - floor.x) + P.WriteByte(r.y - floor.y) + P.WriteByte(r.z - floor.z)
  }

  function WriteRecords(rs: seq<V.Vector3i>, floor: V.Vector3i): seq<P.Token>
    decreases |rs|
  {
    if rs == [] then [] else WriteRecord(rs[0], floor) + WriteRecords(rs[1..], floor)
  }

  lemma {:induction false} WriteRecordsSnoc(rs: seq<V.Vector3i>, r: V.Vector3i, floor: V.Vector3i)
    ensures WriteRecords(rs + [r], floor) == WriteRecords(rs, floor) + WriteRecord(r, floor)
    decreases |rs|
  {
    if rs == [] {
      assert [r][1..] == [];
    } else {
      assert (rs + [r])[1..] == rs[1..] + [r];
      WriteRecordsSnoc(rs[1..], r, floor);
    }
  }

  /** What a coordinate becomes: written as an offset from `written`, read back onto `read`. */
  function ShiftCoordinate(v: int, written: int, read: int): int32
  {
    Wrap32(ToByte(v - written) + read)
  }

  function Shift(r: V.Vector3i, written: V.Vector3i, read: V.Vector3i): V.Vector3i
  {
    V.Vector3i(ShiftCoordinate(r.x, written.x, read.x), ShiftCoordinate(r.y, written.y, read.y), ShiftCoordinate(r.z, written.z, read.z))
  }

  function Shifted(rs: seq<V.Vector3i>, written: V.Vector3i, read: V.Vector3i): (r: seq<V.Vector3i>)
    ensures |r| == |rs| && forall i :: 0 <= i < |rs| ==> r[i] == Shift(rs[i], written, read)
  {
    seq(|rs|, i requires 0 <= i < |rs| => Shift(rs[i], written, read))
  }

  lemma ShiftedCons(rs: seq<V.Vector3i>, written: V.Vector3i, read: V.Vector3i, acc: seq<V.Vector3i>)
    requires rs != []
    ensures (acc + [Shift(rs[0], written, read)]) + Shifted(rs[1..], written, read) == acc + Shifted(rs, written, read)
  {
    var l := (acc + [Shift(rs[0], written, read)]) + Shifted(rs[1..], written, read);
    var r := acc + Shifted(rs, written, read);
    assert |l| == |r|;
    forall i | 0 <= i < |l| ensures l[i] == r[i] {
      if i > |acc| { assert l[i] == Shifted(rs[1..], written, read)[i - |acc| - 1]; }
    }
  }

  lemma RecordRoundTrip(r: V.Vector3i, written: V.Vector3i, read: V.Vector3i, rest: seq<P.Token>)
    ensures ReadRecord(WriteRecord(r, written) + rest, read) == Ok(P.Read(Shift(r, written, read), rest))
  {
    var s := WriteRecord(r, written) + rest;
    assert s[1..][1..][1..] == rest;
  }

  /** The records come back in order, each shifted from the writer's floor onto the reader's. */
  lemma {:induction false} RecordsRoundTrip(rs: seq<V.Vector3i>, written: V.Vector3i, read: V.Vector3i, acc: seq<V.Vector3i>, rest: seq<P.Token>)
    ensures ReadRecords(WriteRecords(rs, written) + rest, |rs|, read, acc) == Ok(P.Read(acc + Shifted(rs, written, read), rest))
    decreases |rs|
  {
    if rs == [] {
      assert WriteRecords(rs, written) + rest == rest;
      assert acc + Shifted(rs, written, read) == acc;
    } else {
      var tail := WriteRecords(rs[1..], written) + rest;
      assert WriteRecords(rs, written) + rest == WriteRecord(rs[0], written) + tail;
      RecordRoundTrip(rs[0], written, read, tail);
      RecordsRoundTrip(rs[1..], written, read, acc + [Shift(rs[0], written, read)], rest);
      ShiftedCons(rs, written, read, acc);
    }
  }

  /** A coordinate survives an offset from the same floor exactly when that offset, in `int` arithmetic, is a signed byte. */
  lemma OffsetRoundTrip(v: int32, f: int32)
    ensures ShiftCoordinate(v, f, f) == v <==> IsByte(Wrap32(v - f))
  {
    var d := v - f;
    var w := Wrap32(d);
    var b := ToByte(d);
    assert b == ToByte(w) by {
      var k := (w - d) / TWO_32;
      assert w - d == k * TWO_32;
      assert w - d == (k * 0x100_0000) * TWO_8;
      SameLowByte(d, w, k * 0x100_0000);
    }
    if IsByte(w) {
      assert b == w;
      var k := (w - d) / TWO_32;
      assert w - d == k * TWO_32;
      assert v - (b + f) == (-k) * TWO_32;
      WrapCongruent(b + f, v, -k);
    }
    if Wrap32(b + f) == v {
      var j := (Wrap32(b + f) - (b + f)) / TWO_32;
      assert v - (b + f) == j * TWO_32;
      var k := (w - d) / TWO_32;
      assert w - d == k * TWO_32;
      assert w - b == (k + j) * TWO_32;
      assert w == b;
    }
  }

  lemma SameLowByte(d: int, w: int, k: int)
    requires w - d == k * TWO_8
    ensures ToByte(d) == ToByte(w)
  {
    var q := d / TWO_8;
    ModUnique(w, TWO_8, q + k, d % TWO_8);
  }

  lemma WrapCongruent(x: int, v: int32, k: int)
    requires v - x == k * TWO_32
    ensures Wrap32(x) == v
  {
    assert x == (-k) * TWO_32 + v;
    assert IsInt(v);
    if v >= 0 {
      ModUnique(x, TWO_32, -k, v);
    } else {
      assert x == (-k - 1) * TWO_32 + (v + TWO_32);
      ModUnique(x, TWO_32, -k - 1, v + TWO_32);
    }
  }

  /** Every coordinate of a record is within a signed byte of the floor, in `int` arithmetic. */
  predicate Fits(r: V.Vector3i, floor: V.Vector3i)
  {
    IsByte(Wrap32(r.x - floor.x)) && IsByte(Wrap32(r.y - floor.y)) && IsByte(Wrap32(r.z - floor.z))
  }

  /** Records written and read against the same floor come back unchanged exactly when every one of them fits. */
  lemma RecordsExact(rs: seq<V.Vector3i>, floor: V.Vector3i)
    ensures Shifted(rs, floor, floor) == rs <==> forall i :: 0 <= i < |rs| ==> Fits(rs[i], floor)
  {
    forall i | 0 <= i < |rs|
      ensures Shift(rs[i], floor, floor) == rs[i] <==> Fits(rs[i], floor)
    {
      OffsetRoundTrip(rs[i].x, floor.x);
      OffsetRoundTrip(rs[i].y, floor.y);
      OffsetRoundTrip(rs[i].z, floor.z);
    }
    if Shifted(rs, floor, floor) == rs {
      forall i | 0 <= i < |rs| ensures Fits(rs[i], floor) {
        assert Shifted(rs, floor, floor)[i] == rs[i];
      }
    }
  }

  // ---------------------------------------------------------------------------
  // From 1.21.2

  /** Strength and block count, sent from 1.21.9; kept otherwise. */
  function ReadTotals(version: int, f: Explosion, s: seq<P.Token>): Result<P.Read<Explosion>, P.StreamError>
  {
    if version >= P.V_1_21_9 then
      var strength :- P.ReadFloat(s);
      var count :- P.ReadInt(strength.rest);
      Ok(P.Read(f.(strength := strength.value, blockCount := count.value), count.rest))
    else Ok(P.Read(f, s))
  }

  function WriteTotals(version: int, f: Explosion): seq<P.Token>
  {
    if version >= P.V_1_21_9 then [P.Float(f.strength), P.Int(f.blockCount)] else []
  }

  function ReadBlockParticles(version: int, f: Explosion, s: seq<P.Token>): Result<P.Read<Explosion>, P.StreamError>
  {
    if version >= P.V_1_21_9 then
      var list :- P.ReadStruct(s, P.BlockParticleList);
      Ok(P.Read(f.(blockParticles := Some(list.value)), list.rest))
    else Ok(P.Read(f, s))
  }

  function WriteBlockParticles(version: int, f: Explosion): seq<P.Token>
    requires HasBlockParticles(version, f)
  {
    if version >= P.V_1_21_9 then [P.Struct(P.BlockParticleList, f.blockParticles.value)] else []
  }

  /** What `read` takes after the position from 1.21.2; the block interaction is set to `DESTROY_BLOCKS` without being read. */
  function DecodeModern(version: int, f: Explosion, s: seq<P.Token>): Result<P.Read<Explosion>, P.StreamError>
  {
    var totals :- ReadTotals(version, f, s);
    var knockback :- P.ReadOptional(totals.rest, V.ReadVector3d);
    DecodeEffectsModern(version, totals.value.(knockback := knockback.value), knockback.rest)
  }

  /** Particle, sound and, from 1.21.9, block particles. */
  function DecodeEffectsModern(version: int, f: Explosion, s: seq<P.Token>): Result<P.Read<Explosion>, P.StreamError>
  {
    var particle :- P.ReadStruct(s, P.ParticleData);
    var sound :- P.ReadSound(particle.rest);
    ReadBlockParticles(version, f.(particle := particle.value, sound := sound.value, blockInteraction := Some(DESTROY_BLOCKS)), sound.rest)
  }

  function EncodeModern(version: int, f: Explosion): seq<P.Token>
    requires HasBlockParticles(version, f)
  {
    WriteTotals(version, f) + (P.WriteOptional(f.knockback, V.WriteVector3d)
      + ([P.Struct(P.ParticleData, f.particle), P.SoundEvent(f.sound)] + WriteBlockParticles(version, f)))
  }

  // ---------------------------------------------------------------------------
  // Below 1.21.2

  /** The record count: a varint from 1.17, an int before. */
  function ReadCount(version: int, s: seq<P.Token>): Result<P.Read<int32>, P.StreamError>
  {
    if version >= P.V_1_17 then P.ReadVarInt(s) else P.ReadInt(s)
  }

  function WriteCount(version: int, n: int32): P.Token
  {
    if version >= P.V_1_17 then P.VarInt(n) else P.Int(n)
  }

  /** `new StaticSound(readIdentifier(), readOptional(readFloat))`. */
  function ReadStaticSound(s: seq<P.Token>): Result<P.Read<P.Sound>, P.StreamError>
  {
    var key :- P.ReadIdent(s);
    var range :- P.ReadOptional(key.rest, P.ReadFloat);
    Ok(P.Read(P.Sound(key.value, range.value, true), range.rest))
  }

  function WriteFloat(bits: int): seq<P.Token>
  {
    [P.Float(bits)]
  }

  function WriteStaticSound(sound: P.Sound): seq<P.Token>
  {
    [P.Ident(sound.key)] + P.WriteOptional(sound.range, WriteFloat)
  }

  lemma FloatInverse()
    ensures P.Inverse(P.ReadFloat, WriteFloat, b => true)
  {
    forall b, rest ensures P.ReadFloat(WriteFloat(b) + rest) == Ok(P.Read(b, rest)) {
      assert (WriteFloat(b) + rest)[1..] == rest;
    }
  }

  /** Only a sound's key and range travel before 1.20.5, and it comes back as a `StaticSound`. */
  lemma StaticSoundRoundTrip(sound: P.Sound, rest: seq<P.Token>)
    ensures ReadStaticSound(WriteStaticSound(sound) + rest) == Ok(P.Read(sound.(isStatic := true), rest))
  {
    var s := WriteStaticSound(sound) + rest;
    assert s[1..] == P.WriteOptional(sound.range, WriteFloat) + rest;
    FloatInverse();
    P.OptionalRoundTrip(P.ReadFloat, WriteFloat, b => true, sound.range, rest);
  }

  /** The 1.20.3 fields: block interaction, two particles and a sound; before 1.20.3 defaults that are not read. */
  function DecodeEffects(version: int, f: Explosion, s: seq<P.Token>): Result<P.Read<Explosion>, P.StreamError>
  {
    if version >= P.V_1_20_3 then
      var id :- P.ReadVarInt(s);
      var interaction :- InteractionOf(id.value);
      var small :- P.ReadStruct(id.rest, P.ParticleData);
      var particle :- P.ReadStruct(small.rest, P.ParticleData);
      var sound :- if version >= P.V_1_20_5 then P.ReadSound(particle.rest) else ReadStaticSound(particle.rest);
      Ok(P.Read(f.(blockInteraction := Some(interaction), smallParticle := small.value, particle := particle.value, sound := sound.value), sound.rest))
    else
      Ok(P.Read(f.(blockInteraction := Some(DESTROY_BLOCKS), sound := INTENTIONALLY_EMPTY), s))
  }

  function EncodeEffects(version: int, f: Explosion): seq<P.Token>
    requires version >= P.V_1_20_3 ==> f.blockInteraction.Some?
  {
    if version >= P.V_1_20_3 then
      [P.VarInt(Ordinal(f.blockInteraction.value)), P.Struct(P.ParticleData, f.smallParticle), P.Struct(P.ParticleData, f.particle)]
      + (if version >= P.V_1_20_5 then [P.SoundEvent(f.sound)] else WriteStaticSound(f.sound))
    else []
  }

  /** The records against the floor of the position just read, the knockback as floats, then the 1.20.3 fields. */
  function DecodeRecordsOn(version: int, c: Casts, f: Explosion, s: seq<P.Token>, n: nat): Result<P.Read<Explosion>, P.StreamError>
  {
    var records :- ReadRecords(s, n, ToFloor(version, f.position), []);
    var knockback :- ReadFloatVector(c, records.rest);
    DecodeEffects(version, f.(records := Some(records.value), knockback := Some(knockback.value)), knockback.rest)
  }

  /** What `read` takes after the position below 1.21.2; a negative count fails as the list's capacity. */
  function DecodeLegacy(version: int, c: Casts, f: Explosion, s: seq<P.Token>): Result<P.Read<Explosion>, P.StreamError>
  {
    var strength :- P.ReadFloat(s);
    var count :- ReadCount(version, strength.rest);
    if count.value < 0 then Err(P.NegativeSize(count.value))
    else DecodeRecordsOn(version, c, f.(strength := strength.value), count.rest, count.value)
  }

  /** What `write` sends after the position below 1.21.2; nothing, as a null pointer exception, without records, knockback or (from 1.20.3) a block interaction. */
  function EncodeLegacy(version: int, c: Casts, f: Explosion): Option<seq<P.Token>>
    requires Sendable(f)
  {
    if f.records.None? || f.knockback.None? || (version >= P.V_1_20_3 && f.blockInteraction.None?) then None
    else
      var rs := f.records.value;
      Some([P.Float(f.strength)] + ([WriteCount(version, |rs|)] + (WriteRecords(rs, ToFloor(version, f.position))
        + (WriteFloatVector(c, f.knockback.value) + EncodeEffects(version, f)))))
  }

  // ---------------------------------------------------------------------------
  // The whole packet

  /** What `read` takes from the buffer; fields the version does not send keep their values from `prev`. */
  function Decode(version: int, c: Casts, prev: Explosion, s: seq<P.Token>): Result<P.Read<Explosion>, P.StreamError>
  {
    var position :- ReadPosition(version, c, s);
    var f := prev.(position := position.value);
    if version >= P.V_1_21_2 then DecodeModern(version, f, position.rest) else DecodeLegacy(version, c, f, position.rest)
  }

  /** What `write` appends to the buffer, or nothing when it would dereference a missing field. */
  function Encode(version: int, c: Casts, f: Explosion): Option<seq<P.Token>>
    requires Sendable(f)
  {
    var position := WritePosition(version, c, f.position);
    if version >= P.V_1_21_2 then
      if HasBlockParticles(version, f) then Some(position + EncodeModern(version, f)) else None
    else
      var tail := EncodeLegacy(version, c, f);
      if tail.None? then None else Some(position + tail.value)
  }

  /** The state `read` leaves after a `write` of `f` with the same version, starting from `prev`. */
  function Carried(version: int, c: Casts, f: Explosion, prev: Explosion): Explosion
    requires version < P.V_1_21_2 ==> f.records.Some? && f.knockback.Some?
  {
    var position := SentPosition(version, c, f.position);
    if version >= P.V_1_21_2 then
      var modern := prev.(position := position, knockback := f.knockback, particle := f.particle, sound := f.sound,
        blockInteraction := Some(DESTROY_BLOCKS));
      if version >= P.V_1_21_9 then modern.(strength := f.strength, blockCount := f.blockCount, blockParticles := f.blockParticles)
      else modern
    else
      var effects :=
        if version >= P.V_1_20_3 then
          prev.(blockInteraction := f.blockInteraction, smallParticle := f.smallParticle, particle := f.particle,
            sound := if version >= P.V_1_20_5 then f.sound else f.sound.(isStatic := true))
        else prev.(blockInteraction := Some(DESTROY_BLOCKS), sound := INTENTIONALLY_EMPTY);
      effects.(position := position, strength := f.strength,
        records := Some(Shifted(f.records.value, ToFloor(version, f.position), ToFloor(version, position))),
        knockback := Some(Rounded(c, f.knockback.value)))
  }

  /** The tokens appended one after another are the packet's nested concatenation. */
  lemma Chain(start: seq<P.Token>, a: seq<P.Token>, b: seq<P.Token>, c: seq<P.Token>, d: seq<P.Token>, e: seq<P.Token>)
    ensures start + a + b + c + d + e == start + (a + (b + (c + (d + e))))
  {
  }

  lemma ModernRoundTrip(version: int, f: Explosion, g: Explosion, rest: seq<P.Token>)
    requires version >= P.V_1_21_2 && HasBlockParticles(version, f)
    ensures DecodeModern(version, g, EncodeModern(version, f) + rest)
      == Ok(P.Read(g.(knockback := f.knockback, particle := f.particle, sound := f.sound, blockInteraction := Some(DESTROY_BLOCKS),
           strength := if version >= P.V_1_21_9 then f.strength else g.strength,
           blockCount := if version >= P.V_1_21_9 then f.blockCount else g.blockCount,
           blockParticles := if version >= P.V_1_21_9 then f.blockParticles else g.blockParticles), rest))
  {
    var tb := WriteBlockParticles(version, f) + rest;
    var ts := [P.Struct(P.ParticleData, f.particle), P.SoundEvent(f.sound)] + tb;
    var tk := P.WriteOptional(f.knockback, V.WriteVector3d) + ts;
    P.Reassociate(WriteTotals(version, f), P.WriteOptional(f.knockback, V.WriteVector3d),
      [P.Struct(P.ParticleData, f.particle), P.SoundEvent(f.sound)], WriteBlockParticles(version, f), rest);
    TotalsRoundTrip(version, f, g, tk);
    V.Vector3dInverse();
    P.OptionalRoundTrip(V.ReadVector3d, V.WriteVector3d, v => true, f.knockback, ts);
    var h := (if version >= P.V_1_21_9 then g.(strength := f.strength, blockCount := f.blockCount) else g).(knockback := f.knockback);
    EffectsModernRoundTrip(version, f, h, rest);
  }

  lemma TotalsRoundTrip(version: int, f: Explosion, g: Explosion, rest: seq<P.Token>)
    ensures ReadTotals(version, g, WriteTotals(version, f) + rest)
      == Ok(P.Read(if version >= P.V_1_21_9 then g.(strength := f.strength, blockCount := f.blockCount) else g, rest))
  {
    if version >= P.V_1_21_9 {
      assert (WriteTotals(version, f) + rest)[1..][1..] == rest;
    } else {
      assert WriteTotals(version, f) + rest == rest;
    }
  }

  lemma EffectsModernRoundTrip(version: int, f: Explosion, g: Explosion, rest: seq<P.Token>)
    requires HasBlockParticles(version, f)
    ensures DecodeEffectsModern(version, g, [P.Struct(P.ParticleData, f.particle), P.SoundEvent(f.sound)] + (WriteBlockParticles(version, f) + rest))
      == Ok(P.Read(g.(particle := f.particle, sound := f.sound, blockInteraction := Some(DESTROY_BLOCKS),
           blockParticles := if version >= P.V_1_21_9 then f.blockParticles else g.blockParticles), rest))
  {
    var tb := WriteBlockParticles(version, f) + rest;
    assert ([P.Struct(P.ParticleData, f.particle), P.SoundEvent(f.sound)] + tb)[1..][1..] == tb;
    if version >= P.V_1_21_9 { assert tb[1..] == rest; } else { assert tb == rest; }
  }

  lemma EffectsRoundTrip(version: int, f: Explosion, g: Explosion, rest: seq<P.Token>)
    requires version >= P.V_1_20_3 ==> f.blockInteraction.Some?
    ensures DecodeEffects(version, g, EncodeEffects(version, f) + rest)
      == Ok(P.Read(
           if version >= P.V_1_20_3 then
             g.(blockInteraction := f.blockInteraction, smallParticle := f.smallParticle, particle := f.particle,
               sound := if version >= P.V_1_20_5 then f.sound else f.sound.(isStatic := true))
           else g.(blockInteraction := Some(DESTROY_BLOCKS), sound := INTENTIONALLY_EMPTY), rest))
  {
    if version >= P.V_1_20_3 {
      var b := f.blockInteraction.value;
      var sound := if version >= P.V_1_20_5 then [P.SoundEvent(f.sound)] else WriteStaticSound(f.sound);
      var t := sound + rest;
      var s := EncodeEffects(version, f) + rest;
      assert s == [P.VarInt(Ordinal(b)), P.Struct(P.ParticleData, f.smallParticle), P.Struct(P.ParticleData, f.particle)] + t;
      assert s[1..][1..][1..] == t;
      assert P.ReadVarInt(s) == Ok(P.Read(Ordinal(b), s[1..]));
      assert InteractionOf(Ordinal(b)) == Ok(b);
      assert P.ReadStruct(s[1..], P.ParticleData) == Ok(P.Read(f.smallParticle, s[1..][1..]));
      assert P.ReadStruct(s[1..][1..], P.ParticleData) == Ok(P.Read(f.particle, t));
      if version >= P.V_1_20_5 {
        assert t[1..] == rest;
        assert P.ReadSound(t) == Ok(P.Read(f.sound, rest));
      } else {
        StaticSoundRoundTrip(f.sound, rest);
      }
    } else {
      assert EncodeEffects(version, f) + rest == rest;
    }
  }

  lemma RecordsOnRoundTrip(version: int, c: Casts, f: Explosion, g: Explosion, rest: seq<P.Token>)
    requires f.records.Some? && f.knockback.Some?
    requires version >= P.V_1_20_3 ==> f.blockInteraction.Some?
    ensures var rs := f.records.value;
      DecodeRecordsOn(version, c, g,
        WriteRecords(rs, ToFloor(version, f.position)) + (WriteFloatVector(c, f.knockback.value) + (EncodeEffects(version, f) + rest)), |rs|)
      == DecodeEffects(version,
           g.(records := Some(Shifted(rs, ToFloor(version, f.position), ToFloor(version, g.position))), knockback := Some(Rounded(c, f.knockback.value))),
           EncodeEffects(version, f) + rest)
  {
    var rs := f.records.value;
    var tail := WriteFloatVector(c, f.knockback.value) + (EncodeEffects(version, f) + rest);
    RecordsRoundTrip(rs, ToFloor(version, f.position), ToFloor(version, g.position), [], tail);
    assert [] + Shifted(rs, ToFloor(version, f.position), ToFloor(version, g.position)) == Shifted(rs, ToFloor(version, f.position), ToFloor(version, g.position));
    FloatVectorRoundTrip(c, f.knockback.value, EncodeEffects(version, f) + rest);
  }

  lemma LegacyRoundTrip(version: int, c: Casts, f: Explosion, g: Explosion, rest: seq<P.Token>)
    requires Sendable(f) && EncodeLegacy(version, c, f).Some?
    ensures DecodeLegacy(version, c, g, EncodeLegacy(version, c, f).value + rest)
      == DecodeEffects(version,
           g.(strength := f.strength, records := Some(Shifted(f.records.value, ToFloor(version, f.position), ToFloor(version, g.position))),
             knockback := Some(Rounded(c, f.knockback.value))),
           EncodeEffects(version, f) + rest)
  {
    var rs := f.records.value;
    var body := WriteRecords(rs, ToFloor(version, f.position)) + (WriteFloatVector(c, f.knockback.value) + EncodeEffects(version, f));
    var tail := WriteRecords(rs, ToFloor(version, f.position)) + (WriteFloatVector(c, f.knockback.value) + (EncodeEffects(version, f) + rest));
    P.Reassociate([P.Float(f.strength)], [WriteCount(version, |rs|)], WriteRecords(rs, ToFloor(version, f.position)),
      WriteFloatVector(c, f.knockback.value) + EncodeEffects(version, f), rest);
    assert (WriteFloatVector(c, f.knockback.value) + EncodeEffects(version, f)) + rest
      == WriteFloatVector(c, f.knockback.value) + (EncodeEffects(version, f) + rest);
    var s := EncodeLegacy(version, c, f).value + rest;
    assert s[1..][1..] == tail;
    RecordsOnRoundTrip(version, c, f, g.(strength := f.strength), rest);
  }

  /**
   * `read` takes back what `write` wrote with the same version: every field
   * the version sends, with the position and knockback rounded through floats
   * where they travel as floats and each record shifted from the writer's
   * floor onto the reader's; defaults where the version sends none; and
   * `prev`'s value for the rest. `write` fails exactly below 1.21.2 on missing
   * records, knockback or (from 1.20.3) block interaction, and from 1.21.9 on
   * missing block particles.
   */
  lemma RoundTrip(version: int, c: Casts, f: Explosion, prev: Explosion, rest: seq<P.Token>)
    requires Sendable(f)
    ensures Encode(version, c, f).None? <==>
      || (version >= P.V_1_21_9 && f.blockParticles.None?)
      || (version < P.V_1_21_2 && (f.records.None? || f.knockback.None? || (version >= P.V_1_20_3 && f.blockInteraction.None?)))
    ensures Encode(version, c, f).Some? ==>
      Decode(version, c, prev, Encode(version, c, f).value + rest) == Ok(P.Read(Carried(version, c, f, prev), rest))
  {
    if version >= P.V_1_21_2 && HasBlockParticles(version, f) {
      ModernPacketRoundTrip(version, c, f, prev, rest);
    } else if version < P.V_1_21_2 && Encode(version, c, f).Some? {
      LegacyPacketRoundTrip(version, c, f, prev, rest);
    }
  }

  lemma ModernPacketRoundTrip(version: int, c: Casts, f: Explosion, prev: Explosion, rest: seq<P.Token>)
    requires version >= P.V_1_21_2 && Sendable(f) && HasBlockParticles(version, f)
    ensures Encode(version, c, f) == Some(WritePosition(version, c, f.position) + EncodeModern(version, f))
    ensures Decode(version, c, prev, Encode(version, c, f).value + rest) == Ok(P.Read(Carried(version, c, f, prev), rest))
  {
    var position := WritePosition(version, c, f.position);
    assert (position + EncodeModern(version, f)) + rest == position + (EncodeModern(version, f) + rest);
    PositionRoundTrip(version, c, f.position, EncodeModern(version, f) + rest);
    ModernRoundTrip(version, f, prev.(position := SentPosition(version, c, f.position)), rest);
  }

  lemma LegacyPacketRoundTrip(version: int, c: Casts, f: Explosion, prev: Explosion, rest: seq<P.Token>)
    requires version < P.V_1_21_2 && Sendable(f) && EncodeLegacy(version, c, f).Some?
    ensures Encode(version, c, f) == Some(WritePosition(version, c, f.position) + EncodeLegacy(version, c, f).value)
    ensures Decode(version, c, prev, Encode(version, c, f).value + rest) == Ok(P.Read(Carried(version, c, f, prev), rest))
  {
    var position := WritePosition(version, c, f.position);
    var tail := EncodeLegacy(version, c, f).value;
    assert (position + tail) + rest == position + (tail + rest);
    PositionRoundTrip(version, c, f.position, tail + rest);
    var g := prev.(position := SentPosition(version, c, f.position));
    LegacyRoundTrip(version, c, f, g, rest);
    EffectsRoundTrip(version, f, g.(strength := f.strength, records := Some(Shifted(f.records.value, ToFloor(version, f.position), ToFloor(version, g.position))),
         knockback := Some(Rounded(c, f.knockback.value))), rest);
  }

  /**
   * From 1.19.3 to 1.21.1 the position travels exactly, so the records come
   * back unchanged exactly when each lies within a signed byte of the floored
   * position.
   */
  lemma RecordsSurvive(version: int, c: Casts, f: Explosion, prev: Explosion)
    requires P.V_1_19_3 <= version < P.V_1_21_2 && f.records.Some? && f.knockback.Some?
    ensures Carried(version, c, f, prev).records == f.records
      <==> forall i :: 0 <= i < |f.records.value| ==> Fits(f.records.value[i], ToFloor(version, f.position))
  {
    RecordsExact(f.records.value, ToFloor(version, f.position));
  }

  /**
   * Which fields a version puts on the wire: strength is lost only from 1.21.2
   * to 1.21.8, block count and block particles travel only from 1.21.9, the
   * small particle only from 1.20.3 to 1.21.1, and the block interaction is
   * `DESTROY_BLOCKS` whenever it is not sent.
   */
  lemma FieldsByVersion(version: int, c: Casts, f: Explosion, prev: Explosion, rest: seq<P.Token>)
    requires Sendable(f) && Encode(version, c, f).Some?
    ensures var r := Decode(version, c, prev, Encode(version, c, f).value + rest);
      && r.Ok?
      && (r.value.value.strength == if P.V_1_21_2 <= version < P.V_1_21_9 then prev.strength else f.strength)
      && (r.value.value.blockCount == if version >= P.V_1_21_9 then f.blockCount else prev.blockCount)
      && (r.value.value.blockParticles == if version >= P.V_1_21_9 then f.blockParticles else prev.blockParticles)
      && (r.value.value.smallParticle == if P.V_1_20_3 <= version < P.V_1_21_2 then f.smallParticle else prev.smallParticle)
      && (r.value.value.blockInteraction == if P.V_1_20_3 <= version < P.V_1_21_2 then f.blockInteraction else Some(DESTROY_BLOCKS))
      && (version < P.V_1_20_3 ==> r.value.value.sound == INTENTIONALLY_EMPTY)
      && (version >= P.V_1_21_2 ==> r.value.value.knockback == f.knockback && r.value.value.records == prev.records)
  {
    RoundTrip(version, c, f, prev, rest);
  }

  /**
   * `getBlockCount`: the block count, except that below 1.21.9 a count of
   * zero defers to the number of records; `None` is the null pointer
   * exception when there are none.
   */
  function BlockCount(version: int, f: Explosion): (r: Option<int>)
  {
    if version < P.V_1_21_9 && f.blockCount == 0 then
      (if f.records.None? then None else Some(|f.records.value|))
    else Some(f.blockCount)
  }

  /** After a read, `getBlockCount` gives the count the packet sent: the int from 1.21.9, the number of records below 1.21.2. */
  lemma BlockCountAfterRead(version: int, c: Casts, f: Explosion, prev: Explosion, rest: seq<P.Token>)
    requires Sendable(f) && Encode(version, c, f).Some?
    requires version < P.V_1_21_9 ==> prev.blockCount == 0
    requires P.V_1_21_2 <= version < P.V_1_21_9 ==> prev.records.Some?
    ensures var r := Decode(version, c, prev, Encode(version, c, f).value + rest);
      r.Ok?
      && (version >= P.V_1_21_9 ==> BlockCount(version, r.value.value) == Some(f.blockCount))
      && (version < P.V_1_21_2 ==> BlockCount(version, r.value.value) == Some(|f.records.value|))
      && (P.V_1_21_2 <= version < P.V_1_21_9 ==> BlockCount(version, r.value.value) == Some(|prev.records.value|))
  {
    RoundTrip(version, c, f, prev, rest);
  }

  /**
   * Neither constructor sets the block particles, so from 1.21.9 a packet
   * built by either of them cannot be written: `write` dereferences the
   * missing list.
   */
  lemma ConstructedUnwritable(version: int, c: Casts, position: V.Vector3d, strength: int, records: seq<V.Vector3i>,
                              knockback: V.Vector3d, smallParticle: int, particle: int, interaction: BlockInteraction,
                              sound: P.Sound, modernKnockback: Option<V.Vector3d>)
    requires version >= P.V_1_21_9 && |records| < TWO_31
    ensures Encode(version, c, Explosion(position, strength, 0, Some(records), Some(knockback), smallParticle, particle,
      Some(interaction), sound, None)).None?
    ensures Encode(version, c, Explosion(position, 0, 0, None, modernKnockback, 0, particle, None, sound, None)).None?
  {
    RoundTrip(version, c, Explosion(position, strength, 0, Some(records), Some(knockback), smallParticle, particle,
      Some(interaction), sound, None), Explosion(position, 0, 0, None, None, 0, 0, None, sound, None), []);
  }

  /** The payload this model gives an empty weighted list. */
  const NO_BLOCK_PARTICLES: int := 0

  /** The state a constructor evidently means to leave: missing block particles become an empty list. */
  function WithBlockParticles(f: Explosion): (g: Explosion)
    ensures g.blockParticles.Some? && g.(blockParticles := f.blockParticles) == f
    ensures f.blockParticles.Some? ==> g == f
  {
    if f.blockParticles.Some? then f else f.(blockParticles := Some(NO_BLOCK_PARTICLES))
  }

  /**
   * With block particles defaulted, every packet from 1.21.2 on can be
   * written, and `read` takes it back as `RoundTrip` describes.
   */
  lemma DefaultedRoundTrip(version: int, c: Casts, f: Explosion, prev: Explosion, rest: seq<P.Token>)
    requires version >= P.V_1_21_2 && Sendable(f)
    ensures Encode(version, c, WithBlockParticles(f)).Some?
    ensures Decode(version, c, prev, Encode(version, c, WithBlockParticles(f)).value + rest)
      == Ok(P.Read(Carried(version, c, WithBlockParticles(f), prev), rest))
  {
    ModernPacketRoundTrip(version, c, WithBlockParticles(f), prev, rest);
  }

  /** The packet wrapper: its server version, its buffer, and the explosion's fields. */
  class Wrapper {
    const version: int
    var buffer: seq<P.Token>
    var position: V.Vector3d
    var strength: int
    var blockCount: int32
    var records: Option<seq<V.Vector3i>>
    var knockback: Option<V.Vector3d>
    var smallParticle: int
    var particle: int
    var blockInteraction: Option<BlockInteraction>
    var sound: P.Sound
    var blockParticles: Option<int>

    function Fields(): Explosion
      reads this
    {
      Explosion(position, strength, blockCount, records, knockback, smallParticle, particle, blockInteraction, sound, blockParticles)
    }

    /** The wrapper around a received packet, before `read`. */
    constructor FromEvent(version: int, buffer: seq<P.Token>)
      ensures this.version == version && this.buffer == buffer
      ensures Fields() == Explosion(V.Vector3d(0, 0, 0), 0, 0, None, None, 0, 0, None, INTENTIONALLY_EMPTY, None)
    {
      this.version := version;
      this.buffer := buffer;
      position, strength, blockCount, records, knockback := V.Vector3d(0, 0, 0), 0, 0, None, None;
      smallParticle, particle, blockInteraction, sound, blockParticles := 0, 0, None, INTENTIONALLY_EMPTY, None;
    }

    /** The pre-1.21.2 constructor: every field but block count and block particles, which stay unset. */
    constructor (version: int, position: V.Vector3d, strength: int, records: seq<V.Vector3i>, knockback: V.Vector3d,
                 smallParticle: int, particle: int, blockInteraction: BlockInteraction, sound: P.Sound)
      ensures this.version == version && buffer == []
      ensures Fields() == Explosion(position, strength, 0, Some(records), Some(knockback), smallParticle, particle,
        Some(blockInteraction), sound, None)
    {
      this.version := version;
      buffer := [];
      this.position, this.strength, blockCount, this.records, this.knockback := position, strength, 0, Some(records), Some(knockback);
      this.smallParticle, this.particle, this.blockInteraction, this.sound, blockParticles := smallParticle, particle, Some(blockInteraction), sound, None;
    }

    /** The 1.21.2 constructor: position, optional knockback, particle and sound; the block particles stay unset. */
    constructor Modern(version: int, position: V.Vector3d, knockback: Option<V.Vector3d>, particle: int, sound: P.Sound)
      ensures this.version == version && buffer == []
      ensures Fields() == Explosion(position, 0, 0, None, knockback, 0, particle, None, sound, None)
    {
      this.version := version;
      buffer := [];
      this.position, strength, blockCount, records, this.knockback := position, 0, 0, None, knockback;
      smallParticle, this.particle, blockInteraction, this.sound, blockParticles := 0, particle, None, sound, None;
    }

    /** `read`: the position, then the fields of the version's layout. */
    method Read(c: Casts) returns (o: Outcome<P.StreamError>)
      modifies this
      ensures var r := Decode(version, c, old(Fields()), old(buffer));
        (o.Pass? <==> r.Ok?) && (r.Ok? ==> Fields() == r.value.value && buffer == r.value.rest)
    {
      var p := ReadPosition(version, c, buffer);
      if p.Err? { return Fail(p.error); }
      position, buffer := p.value.value, p.value.rest;
      if version >= P.V_1_21_2 {
        o := ReadModernFields();
      } else {
        o := ReadLegacyFields(c);
      }
    }

    method ReadModernFields() returns (o: Outcome<P.StreamError>)
      requires version >= P.V_1_21_2
      modifies this
      ensures var r := DecodeModern(version, old(Fields()), old(buffer));
        (o.Pass? <==> r.Ok?) && (r.Ok? ==> Fields() == r.value.value && buffer == r.value.rest)
    {
      if version >= P.V_1_21_9 {
        var st := P.ReadFloat(buffer);
        if st.Err? { return Fail(st.error); }
        strength, buffer := st.value.value, st.value.rest;
        var n := P.ReadInt(buffer);
        if n.Err? { return Fail(n.error); }
        blockCount, buffer := n.value.value, n.value.rest;
      }
      var k := P.ReadOptional(buffer, V.ReadVector3d);
      if k.Err? { return Fail(k.error); }
      knockback, buffer := k.value.value, k.value.rest;
      o := ReadEffectsModernFields();
    }

    method ReadEffectsModernFields() returns (o: Outcome<P.StreamError>)
      modifies this
      ensures var r := DecodeEffectsModern(version, old(Fields()), old(buffer));
        (o.Pass? <==> r.Ok?) && (r.Ok? ==> Fields() == r.value.value && buffer == r.value.rest)
    {
      var pt := P.ReadStruct(buffer, P.ParticleData);
      if pt.Err? { return Fail(pt.error); }
      particle, buffer := pt.value.value, pt.value.rest;
      var snd := P.ReadSound(buffer);
      if snd.Err? { return Fail(snd.error); }
      sound, buffer := snd.value.value, snd.value.rest;
      if version >= P.V_1_21_9 {
        var bp := P.ReadStruct(buffer, P.BlockParticleList);
        if bp.Err? { return Fail(bp.error); }
        blockParticles, buffer := Some(bp.value.value), bp.value.rest;
      }
      blockInteraction := Some(DESTROY_BLOCKS);
      return Pass;
    }

    method ReadLegacyFields(c: Casts) returns (o: Outcome<P.StreamError>)
      requires version < P.V_1_21_2
      modifies this
      ensures var r := DecodeLegacy(version, c, old(Fields()), old(buffer));
        (o.Pass? <==> r.Ok?) && (r.Ok? ==> Fields() == r.value.value && buffer == r.value.rest)
    {
      var st := P.ReadFloat(buffer);
      if st.Err? { return Fail(st.error); }
      strength, buffer := st.value.value, st.value.rest;
      var n := ReadCount(version, buffer);
      if n.Err? { return Fail(n.error); }
      buffer := n.value.rest;
      if n.value.value < 0 { return Fail(P.NegativeSize(n.value.value)); }
      o := ReadRecordsField(n.value.value, ToFloor(version, position));
      if o.Fail? { return; }
      var k := ReadFloatVector(c, buffer);
      if k.Err? { return Fail(k.error); }
      knockback, buffer := Some(k.value.value), k.value.rest;
      o := ReadEffectsFields();
    }

    /** The record loop: `n` records, each three bytes added to the floor. */
    method ReadRecordsField(n: nat, floor: V.Vector3i) returns (o: Outcome<P.StreamError>)
      modifies this
      ensures var r := ReadRecords(old(buffer), n, floor, []);
        (o.Pass? <==> r.Ok?) && (r.Ok? ==> Fields() == old(Fields()).(records := Some(r.value.value)) && buffer == r.value.rest)
    {
      records := Some([]);
      var rs: seq<V.Vector3i> := [];
      var i := 0;
      while i < n
        invariant 0 <= i <= n && records == Some(rs)
        invariant ReadRecords(old(buffer), n, floor, []) == ReadRecords(buffer, n - i, floor, rs)
        invariant Fields() == old(Fields()).(records := Some(rs))
      {
        var record := ReadRecord(buffer, floor);
        if record.Err? { return Fail(record.error); }
        buffer := record.value.rest;
        rs := rs + [record.value.value];
        records := Some(rs);
        i := i + 1;
      }
      return Pass;
    }

    method ReadEffectsFields() returns (o: Outcome<P.StreamError>)
      modifies this
      ensures var r := DecodeEffects(version, old(Fields()), old(buffer));
        (o.Pass? <==> r.Ok?) && (r.Ok? ==> Fields() == r.value.value && buffer == r.value.rest)
    {
      if version >= P.V_1_20_3 {
        o := ReadInteractionAndEffects();
      } else {
        blockInteraction, sound := Some(DESTROY_BLOCKS), INTENTIONALLY_EMPTY;
        o := Pass;
      }
    }

    /** The 1.20.3 fields, read in order: block interaction, two particles, a sound. */
    method ReadInteractionAndEffects() returns (o: Outcome<P.StreamError>)
      requires version >= P.V_1_20_3
      modifies this
      ensures var r := DecodeEffects(version, old(Fields()), old(buffer));
        (o.Pass? <==> r.Ok?) && (r.Ok? ==> Fields() == r.value.value && buffer == r.value.rest)
    {
      ghost var f0 := Fields();
      var id := P.ReadVarInt(buffer);
      if id.Err? { return Fail(id.error); }
      var b := InteractionOf(id.value.value);
      if b.Err? { return Fail(b.error); }
      var sp := P.ReadStruct(id.value.rest, P.ParticleData);
      if sp.Err? { return Fail(sp.error); }
      var pt := P.ReadStruct(sp.value.rest, P.ParticleData);
      if pt.Err? { return Fail(pt.error); }
      var snd := if version >= P.V_1_20_5 then P.ReadSound(pt.value.rest) else ReadStaticSound(pt.value.rest);
      if snd.Err? { return Fail(snd.error); }
      blockInteraction, smallParticle, particle, sound := Some(b.value), sp.value.value, pt.value.value, snd.value.value;
      buffer := snd.value.rest;
      assert Fields() == f0.(blockInteraction := Some(b.value), smallParticle := sp.value.value, particle := pt.value.value, sound := snd.value.value);
      return Pass;
    }

    /** `write`: the version's layout; fails before writing when it would dereference a missing field. */
    method Write(c: Casts) returns (ok: bool)
      requires Sendable(Fields())
      modifies this
      ensures Fields() == old(Fields())
      ensures ok <==> Encode(version, c, Fields()).Some?
      ensures buffer == old(buffer) + (if ok then Encode(version, c, Fields()).value else [])
    {
      if version >= P.V_1_21_2 {
        if version >= P.V_1_21_9 && blockParticles.None? {
          return false;
        }
        WriteModern(c);
        return true;
      }
      if records.None? || knockback.None? || (version >= P.V_1_20_3 && blockInteraction.None?) {
        assert EncodeLegacy(version, c, Fields()).None?;
        return false;
      }
      WriteLegacy(c);
      return true;
    }

    /** `write` from 1.21.2: the position, then the modern fields. */
    method WriteModern(c: Casts)
      requires version >= P.V_1_21_2 && Sendable(Fields()) && HasBlockParticles(version, Fields())
      modifies this
      ensures Fields() == old(Fields())
      ensures Encode(version, c, Fields()).Some? && buffer == old(buffer) + Encode(version, c, Fields()).value
    {
      ghost var start := buffer;
      buffer := buffer + WritePosition(version, c, position);
      WriteModernFields();
      assert buffer == start + (WritePosition(version, c, position) + EncodeModern(version, Fields()));
    }

    /** `write` below 1.21.2, with every field it dereferences present: the position, then the legacy fields. */
    method WriteLegacy(c: Casts)
      requires version < P.V_1_21_2 && Sendable(Fields()) && records.Some? && knockback.Some?
      requires version >= P.V_1_20_3 ==> blockInteraction.Some?
      modifies this
      ensures Fields() == old(Fields())
      ensures Encode(version, c, Fields()).Some? && buffer == old(buffer) + Encode(version, c, Fields()).value
    {
      ghost var start := buffer;
      buffer := buffer + WritePosition(version, c, position);
      WriteLegacyFields(c);
      assert buffer == start + (WritePosition(version, c, position) + EncodeLegacy(version, c, Fields()).value);
    }

    method WriteModernFields()
      requires HasBlockParticles(version, Fields())
      modifies this
      ensures Fields() == old(Fields())
      ensures buffer == old(buffer) + EncodeModern(version, Fields())
    {
      if version >= P.V_1_21_9 {
        buffer := buffer + [P.Float(strength), P.Int(blockCount)];
      }
      buffer := buffer + P.WriteOptional(knockback, V.WriteVector3d);
      buffer := buffer + [P.Struct(P.ParticleData, particle)];
      buffer := buffer + [P.SoundEvent(sound)];
      if version >= P.V_1_21_9 {
        buffer := buffer + [P.Struct(P.BlockParticleList, blockParticles.value)];
      }
    }

    method WriteLegacyFields(c: Casts)
      requires Sendable(Fields()) && records.Some? && knockback.Some?
      requires version >= P.V_1_20_3 ==> blockInteraction.Some?
      modifies this
      ensures Fields() == old(Fields())
      ensures buffer == old(buffer) + EncodeLegacy(version, c, Fields()).value
    {
      ghost var start := buffer;
      ghost var f := Fields();
      buffer := buffer + [P.Float(strength)];
      buffer := buffer + [WriteCount(version, |records.value|)];
      WriteRecordsField(ToFloor(version, position));
      buffer := buffer + WriteFloatVector(c, knockback.value);
      buffer := buffer + EncodeEffects(version, Fields());
      Chain(start, [P.Float(f.strength)], [WriteCount(version, |f.records.value|)], WriteRecords(f.records.value, ToFloor(version, f.position)),
        WriteFloatVector(c, f.knockback.value), EncodeEffects(version, f));
    }

    /** The record loop: three byte offsets from the floor per record. */
    method WriteRecordsField(floor: V.Vector3i)
      requires records.Some?
      modifies this
      ensures Fields() == old(Fields())
      ensures buffer == old(buffer) + WriteRecords(records.value, floor)
    {
      var rs := records.value;
      var i := 0;
      while i < |rs|
        invariant 0 <= i <= |rs|
        invariant buffer == old(buffer) + WriteRecords(rs[..i], floor)
        invariant Fields() == old(Fields())
      {
        buffer := buffer + P.WriteByte(rs[i].x - floor.x);
        buffer := buffer + P.WriteByte(rs[i].y - floor.y);
        buffer := buffer + P.WriteByte(rs[i].z - floor.z);
        WriteRecordsSnoc(rs[..i], rs[i], floor);
        assert rs[..i + 1] == rs[..i] + [rs[i]];
        i := i + 1;
      }
      assert rs[..i] == rs;
    }

    /** `copy`: every field of `other`. */
    method Copy(other: Wrapper)
      modifies this
      ensures Fields() == old(other.Fields())
      ensures buffer == old(buffer)
    {
      position, strength, blockCount, records, knockback := other.position, other.strength, other.blockCount, other.records, other.knockback;
      smallParticle, particle, blockInteraction := other.smallParticle, other.particle, other.blockInteraction;
      sound, blockParticles := other.sound, other.blockParticles;
    }

    /** `getRecords`: the records, a missing list first replaced by an empty one. */
    method GetRecords() returns (rs: seq<V.Vector3i>)
      modifies this
      ensures rs == (if old(records).Some? then old(records).value else [])
      ensures Fields() == old(Fields()).(records := Some(rs))
      ensures buffer == old(buffer)
    {
      if records.None? {
        records := Some([]);
      }
      return records.value;
    }
  }
}
