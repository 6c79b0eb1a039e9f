/**
 * `TypedBlockEntityData` and `TypedEntityData`, which differ only in the
 * registry of their type and its fallback (the furnace block entity, the
 * pig entity): a type sent from 1.21.9 on and an NBT compound. A type is
 * kept as its registry key.
 */
module TypedData {
  import opened Wrappers
  import opened ModifiedUtf8
  import opened NbtTypes
  import P = PacketStream

  datatype TypedData = TypedData(dataType: JString, compound: seq<Entry>)

  /** `FALLBACK_TYPE` of `TypedBlockEntityData` and of `TypedEntityData`. */
  const FURNACE: JString := Literal("minecraft:furnace")
  const PIG: JString := Literal("minecraft:pig")

  /** `read`: the type from 1.21.9, else the fallback; then the compound. */
  function Read(version: int, fallback: JString, s: seq<P.Token>): (r: Result<P.Read<TypedData>, P.StreamError>)
    ensures r.Ok? && version < P.V_1_21_9 ==> r.value.value.dataType == fallback
  {
    var dataType :- if version >= P.V_1_21_9 then P.ReadMapped(s) else Ok(P.Read(fallback, s));
    var compound :- P.ReadCompound(dataType.rest);
    Ok(P.Read(TypedData(dataType.value, compound.value), compound.rest))
  }

  /** `write`: the type from 1.21.9, then the compound. */
  function Write(version: int, data: TypedData): seq<P.Token>
  {
    (if version >= P.V_1_21_9 then [P.Mapped(data.dataType)] else []) + [P.Nbt(Compound(data.compound))]
  }

  /** `read` takes back what `write` wrote; before 1.21.9 the type comes back as the fallback. */
  lemma RoundTrip(version: int, fallback: JString, data: TypedData, rest: seq<P.Token>)
    ensures Read(version, fallback, Write(version, data) + rest)
      == Ok(P.Read(if version >= P.V_1_21_9 then data else data.(dataType := fallback), rest))
  {
    var tail := [P.Nbt(Compound(data.compound))] + rest;
    if version >= P.V_1_21_9 {
      assert Write(version, data) + rest == [P.Mapped(data.dataType)] + tail;
      assert ([P.Mapped(data.dataType)] + tail)[1..] == tail;
    } else {
      assert Write(version, data) + rest == tail;
    }
    assert tail[1..] == rest;
  }

  /** Only the compound is on the wire before 1.21.9, so two values with the same compound are written alike. */
  lemma TypeNotSentBefore1_21_9(version: int, a: TypedData, b: TypedData)
    requires version < P.V_1_21_9 && a.compound == b.compound
    ensures Write(version, a) == Write(version, b)
  {
  }
}
