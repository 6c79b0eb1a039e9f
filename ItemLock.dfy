/**
 * `ItemLock`, the lock component of an item: before 1.21.2 a lock code sent
 * as a raw string tag, from 1.21.2 an item predicate sent as a compound.
 * The field a version does not send takes its default on reading: an empty
 * predicate for a code, the fallback code for a predicate.
 */
module ItemLock {
  import opened Wrappers
  import opened ModifiedUtf8
  import opened NbtTypes
  import P = PacketStream

  datatype ItemLock = ItemLock(code: JString, itemPredicate: seq<Entry>)

  /** `FALLBACK_LOCK_STRING`, the code of a lock made from a predicate. */
  const FALLBACK_CODE: JString := Literal("packetevents$invalid_lock")

  /** `read`: from 1.21.2 a compound predicate; before, a raw tag cast to a string code. */
  function Read(version: int, s: seq<P.Token>): (r: Result<P.Read<ItemLock>, P.StreamError>)
    ensures r.Ok? && version >= P.V_1_21_2 ==> r.value.value.code == FALLBACK_CODE
    ensures r.Ok? && version < P.V_1_21_2 ==> r.value.value.itemPredicate == []
    ensures version < P.V_1_21_2 && s != [] && s[0].Nbt? && !s[0].tag.String? ==> r == Err(P.NotAString)
    ensures version >= P.V_1_21_2 && s != [] && s[0].Nbt? && !s[0].tag.Compound? ==> r == Err(P.NotACompound)
  {
    if version >= P.V_1_21_2 then
      var compound :- P.ReadCompound(s);
      Ok(P.Read(ItemLock(FALLBACK_CODE, compound.value), compound.rest))
    else
      var tag :- P.ReadNbt(s);
      if tag.value.String? then Ok(P.Read(ItemLock(tag.value.s, []), tag.rest)) else Err(P.NotAString)
  }

  /** `write`: the predicate from 1.21.2, the code as a string tag before. */
  function Write(version: int, lock: ItemLock): seq<P.Token>
  {
    if version >= P.V_1_21_2 then [P.Nbt(Compound(lock.itemPredicate))] else [P.Nbt(String(lock.code))]
  }

  /** The part of a lock that a version carries, the other field at its default. */
  function Carried(version: int, lock: ItemLock): ItemLock
  {
    if version >= P.V_1_21_2 then ItemLock(FALLBACK_CODE, lock.itemPredicate) else ItemLock(lock.code, [])
  }

  /** `read` takes back what `write` wrote, up to the field the version does not send. */
  lemma RoundTrip(version: int, lock: ItemLock, rest: seq<P.Token>)
    ensures Read(version, Write(version, lock) + rest) == Ok(P.Read(Carried(version, lock), rest))
  {
    assert (Write(version, lock) + rest)[1..] == rest;
  }

  /** Every lock `read` gives is carried whole by the same version, so writing it and reading again changes nothing. */
  lemma ReadIsStable(version: int, s: seq<P.Token>, rest: seq<P.Token>)
    requires Read(version, s).Ok?
    ensures Carried(version, Read(version, s).value.value) == Read(version, s).value.value
    ensures Read(version, Write(version, Read(version, s).value.value) + rest) == Ok(P.Read(Read(version, s).value.value, rest))
  {
    RoundTrip(version, Read(version, s).value.value, rest);
  }
}
