/**
 * `ParticlePowerData`, the power of a particle, sent from 1.21.9 on; older
 * versions send nothing and read power 1. The float is kept as its IEEE 754
 * bits.
 */
module ParticlePowerData {
  import opened Wrappers
  import opened ModifiedUtf8
  import opened NbtTypes
  import opened NbtCompounds
  import P = PacketStream

  datatype PowerData = PowerData(power: int)

  /** The bits of `1f`. */
  const ONE_F: int := 0x3F80_0000

  const POWER: JString := Literal("power")

  /** `read`: the power from 1.21.9, else 1. */
  function Read(version: int, s: seq<P.Token>): (r: Result<P.Read<PowerData>, P.StreamError>)
    ensures version < P.V_1_21_9 ==> r == Ok(P.Read(PowerData(ONE_F), s))
  {
    if version < P.V_1_21_9 then Ok(P.Read(PowerData(ONE_F), s))
    else
      var power :- P.ReadFloat(s);
      Ok(P.Read(PowerData(power.value), power.rest))
  }

  /** `write`: the power from 1.21.9, else nothing. */
  function Write(version: int, d: PowerData): seq<P.Token>
  {
    if version >= P.V_1_21_9 then [P.Float(d.power)] else []
  }

  /** `read` takes back what `write` wrote; before 1.21.9 it gives power 1. */
  lemma RoundTrip(version: int, d: PowerData, rest: seq<P.Token>)
    ensures Read(version, Write(version, d) + rest) == Ok(P.Read(if version >= P.V_1_21_9 then d else PowerData(ONE_F), rest))
  {
    if version >= P.V_1_21_9 {
      assert (Write(version, d) + rest)[1..] == rest;
    } else {
      assert Write(version, d) + rest == rest;
    }
  }

  /** `decode`: the `power` key as a float, `asFloat` converting other numbers, 1 when absent or not a number. */
  function Decode(entries: seq<Entry>, asFloat: Tag -> int): (r: PowerData)
    ensures !HasName(entries, POWER) ==> r == PowerData(ONE_F)
  {
    PowerData(GetFloatOr(entries, POWER, ONE_F, asFloat))
  }

  /** `encode`: the power, for clients from 1.21.9 on and only when it is not 1. */
  function Encode(version: int, d: PowerData, entries: seq<Entry>): seq<Entry>
  {
    if version >= P.V_1_21_9 && d.power != ONE_F then SetTag(entries, POWER, Float(d.power)) else entries
  }

  /**
   * For a client from 1.21.9 on, `decode` takes back what `encode` added to
   * a compound without the key; power 1 is left out of the compound, and
   * older clients get nothing at all.
   */
  lemma NbtRoundTrip(version: int, d: PowerData, entries: seq<Entry>, asFloat: Tag -> int)
    requires !HasName(entries, POWER)
    ensures version >= P.V_1_21_9 ==> Decode(Encode(version, d, entries), asFloat) == d
    ensures version < P.V_1_21_9 || d.power == ONE_F ==> Encode(version, d, entries) == entries
  {
    if version >= P.V_1_21_9 && d.power != ONE_F {
      SetTagGet(entries, POWER, Float(d.power));
    }
  }
}
