/**
 * `ParticleSpellData`, the colour and power of a spell particle, sent from
 * 1.21.9 on. Older versions send nothing and read white at power 1. A
 * float is kept as its IEEE 754 bits and a colour as its packed RGB value,
 * whose own codecs are not part of this model.
 */
module ParticleSpellData {
  import opened Wrappers
  import opened ModifiedUtf8
  import opened NbtTypes
  import opened NbtCompounds
  import C = NbtCodecs
  import P = PacketStream

  datatype SpellData = SpellData(color: int, power: int)

  /** `Color.WHITE`. */
  const WHITE: int := 0xFF_FFFF
  /** The bits of `1f`; no other float compares equal to it. */
  const ONE_F: int := 0x3F80_0000

  /** What versions before 1.21.9 read. */
  const DEFAULT: SpellData := SpellData(WHITE, ONE_F)

  const COLOR: JString := Literal("color")
  const POWER: JString := Literal("power")

  /** `read`: colour then power from 1.21.9, else the default. */
  function Read(version: int, s: seq<P.Token>): (r: Result<P.Read<SpellData>, P.StreamError>)
    ensures version < P.V_1_21_9 ==> r == Ok(P.Read(DEFAULT, s))
  {
    if version >= P.V_1_21_9 then
      var color :- P.ReadStruct(s, P.RgbColor);
      var power :- P.ReadFloat(color.rest);
      Ok(P.Read(SpellData(color.value, power.value), power.rest))
    else Ok(P.Read(DEFAULT, s))
  }

  /** `write`: colour then power from 1.21.9, else nothing. */
  function Write(version: int, d: SpellData): seq<P.Token>
  {
    if version >= P.V_1_21_9 then [P.Struct(P.RgbColor, d.color), P.Float(d.power)] else []
  }

  /** `read` takes back what `write` wrote; before 1.21.9 it gives the default. */
  lemma RoundTrip(version: int, d: SpellData, rest: seq<P.Token>)
    ensures Read(version, Write(version, d) + rest) == Ok(P.Read(if version >= P.V_1_21_9 then d else DEFAULT, rest))
  {
    var s := Write(version, d) + rest;
    if version >= P.V_1_21_9 {
      assert s[1..][1..] == rest;
    } else {
      assert s == rest;
    }
  }

  /**
   * `decode`: the `color` key through the colour codec, white when absent;
   * the `power` key as a float, with `asFloat` converting other numbers,
   * 1 when absent or not a number.
   */
  function Decode(entries: seq<Entry>, colorCodec: C.Codec<int>, asFloat: Tag -> int): (r: Result<SpellData, C.CodecError>)
    ensures !HasName(entries, COLOR) && !HasName(entries, POWER) ==> r == Ok(DEFAULT)
  {
    var color :- GetOr(entries, COLOR, colorCodec, WHITE);
    Ok(SpellData(color, GetFloatOr(entries, POWER, ONE_F, asFloat)))
  }

  /** `encode`: for clients from 1.21.9 on, the colour unless white and the power unless 1; otherwise nothing. */
  function Encode(version: int, d: SpellData, entries: seq<Entry>, colorCodec: C.Codec<int>): seq<Entry>
  {
    if version >= P.V_1_21_9 then
      var e := if d.color != WHITE then SetTag(entries, COLOR, colorCodec.encode(d.color)) else entries;
      if d.power != ONE_F then SetTag(e, POWER, Float(d.power)) else e
    else entries
  }

  /** The two keys differ in their first letter. */
  lemma KeysDistinct()
    ensures COLOR != POWER
  {
    assert COLOR[0] != POWER[0];
  }

  /**
   * For a client from 1.21.9 on, `decode` takes back what `encode` added to
   * a compound without either key, provided the colour codec takes back the
   * colour; the defaults are left out of the compound.
   */
  lemma NbtRoundTrip(version: int, d: SpellData, entries: seq<Entry>, colorCodec: C.Codec<int>, asFloat: Tag -> int)
    requires version >= P.V_1_21_9
    requires !HasName(entries, COLOR) && !HasName(entries, POWER)
    requires colorCodec.decode(colorCodec.encode(d.color)) == Ok(d.color)
    ensures Decode(Encode(version, d, entries, colorCodec), colorCodec, asFloat) == Ok(d)
    ensures d == DEFAULT ==> Encode(version, d, entries, colorCodec) == entries
  {
    KeysDistinct();
    var e := if d.color != WHITE then SetTag(entries, COLOR, colorCodec.encode(d.color)) else entries;
    if d.color != WHITE { SetTagGet(entries, COLOR, colorCodec.encode(d.color)); }
    if d.power != ONE_F { SetTagGet(e, POWER, Float(d.power)); }
  }

  /** A client before 1.21.9 gets nothing, so decoding its compound from scratch gives the default. */
  lemma OlderClientsGetDefault(version: int, d: SpellData, colorCodec: C.Codec<int>, asFloat: Tag -> int)
    requires version < P.V_1_21_9
    ensures Encode(version, d, [], colorCodec) == []
    ensures Decode(Encode(version, d, [], colorCodec), colorCodec, asFloat) == Ok(DEFAULT)
  {
  }
}
