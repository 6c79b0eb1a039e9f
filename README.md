# packetevents binary codecs in Dafny

This project models the version-aware binary codec layer of packetevents, a
Minecraft protocol library written in Java, and proves properties of that
model. It covers six parts:

- **The NBT resource limiter** (`NBTLimiter.forBuffer` and `noop`), in
  `NbtLimiter`. A limiter holds a byte counter and a depth counter with fixed
  ceilings. It is a value (`Budget`) for the specifications and a class
  (`Limiter`) that the decoders share and change in place.
- **The eager NBT codec** (`DefaultNBTSerializer`). The thirteen tag kinds and
  the tag tree are in `NbtTypes`, and Java's `readUTF`/`writeUTF` string framing
  is in `ModifiedUtf8`.
  - `DefaultNbtSerializer` gives each registered reader as a function over the
    input bytes, a position and a limiter budget.
  - `NbtEncoding` gives the bytes each registered writer emits. It proves that
    reading them back under the no-op limiter gives the same tag, and that
    under any other limiter state the read either is refused or gives that
    same tag.
  - `ReaderLimits` proves that a limiter can only refuse a read: a read that
    succeeds gives the same tag and position as under the no-op limiter. It
    also states what a compound read keeps and charges, for every input.
  - `NbtStream` holds the same readers and writers as methods over a
    `DataInput` object and a `DataOutput` object, with loops. Each method is
    proved equal to its function.
- **The streaming NBT reader** (`SequentialNBTReader`).
  - `TagSkips` and `SkipStream` model its skip table, as functions and as
    methods.
  - `SequentialNbtReader` models its COMPOUND and LIST cursors as a state
    machine: every cursor ever handed out, plus the chain of unfinished ones.
  - `NbtCursors` runs the same operations in place on a `SequentialReader`
    object. Each is proved to match the state machine and to keep the chain
    well formed.
- **The NBT value codecs** (`NbtCodec.apply`/`applyList` and the `NbtCodecs`
  constants). These are in `NbtCodecs`, with the `NBTCompound` accessors they
  use in `NbtCompounds`.
- **The integer bit packings**: `LpVector3d`, `Vector2i` and the
  `PlayerModelType` flag.
- **The version-dispatched field codecs** of:
  - the world-border, spawn-position, player-rotation, effect and explosion
    packets;
  - the `ItemProfile`, `ItemLock`, `TypedBlockEntityData` and `TypedEntityData`
    item components;
  - the `ParticleSpellData` and `ParticlePowerData` particle data.

  Each packet wrapper is a class holding the protocol version, the packet
  buffer and the fields that `read`, `write` and `copy` change in place.

The packet buffer is modelled in `PacketStream` as a queue of typed tokens:
each `write*` primitive appends one token and the matching `read*` takes it
back. Protocol versions are compared by their protocol numbers. Java's
exceptions are the error cases of `Result`/`Outcome` values, and `null` is
`None`.

## Model

| member | source | states |
|---|---|---|
| NbtLimiter.ForBuffer | api/src/main/java/com/github/retrooper/packetevents/protocol/nbt/NBTLimiter.java:63-102 | a buffer limiter starts with nothing charged at depth zero and satisfies the limiter's invariant (bytes and depth within their ceilings) |
| NbtLimiter.IncrementSpec | api/src/main/java/com/github/retrooper/packetevents/protocol/nbt/NBTLimiter.java:69-76 | `increment` fails exactly when the amount is negative or would take the charged total past the ceiling, and then leaves the limiter as it was; otherwise the total grows by exactly the amount |
| NbtLimiter.SuccessKeepsValid | api/src/main/java/com/github/retrooper/packetevents/protocol/nbt/NBTLimiter.java:69-100 | every successful increment, enterDepth and exitDepth keeps 0 <= bytes <= maxBytes and 0 <= depth <= maxDepth |
| NbtLimiter.EnterExitRestores | api/src/main/java/com/github/retrooper/packetevents/protocol/nbt/NBTLimiter.java:86-100 | a successful enterDepth followed by exitDepth gives back exactly the limiter it started from |
| NbtLimiter.NoopNeverFails | api/src/main/java/com/github/retrooper/packetevents/protocol/nbt/NBTLimiter.java:31-53 | the no-op limiter accepts every charge, depth change and readability check and never changes |
| NbtLimiter.IncrementAsWritten | api/src/main/java/com/github/retrooper/packetevents/protocol/nbt/NBTLimiter.java:69-76 | the source's `increment` with its 32-bit sum: a negative amount is refused, and an accepted charge stores the wrapped sum |
| NbtLimiter.AsWrittenAcceptsOverflowingCharge | api/src/main/java/com/github/retrooper/packetevents/protocol/nbt/NBTLimiter.java:72 | with 36 bytes charged, a charge of 2^31 - 4 wraps the sum to a negative number, so the source accepts it and leaves a negative total, while the corrected limiter refuses it |
| NbtLimiter.AsWrittenAgreesWithoutOverflow | api/src/main/java/com/github/retrooper/packetevents/protocol/nbt/NBTLimiter.java:69-76 | whenever the 32-bit sum does not overflow, the source's `increment` and the corrected one agree on success and on the new total |
| NbtLimiter.Limiter.NoopLimiter | api/src/main/java/com/github/retrooper/packetevents/protocol/nbt/NBTLimiter.java:31-53 | the no-op limiter object is not enforcing and holds nothing charged |
| NbtLimiter.Limiter.ForBuffer | api/src/main/java/com/github/retrooper/packetevents/protocol/nbt/NBTLimiter.java:63-102 | a buffer limiter object holds the given byte and depth ceilings, with nothing charged at depth zero |
| NbtLimiter.Limiter.ForBufferDefault | api/src/main/java/com/github/retrooper/packetevents/protocol/nbt/NBTLimiter.java:55-57 | the one-argument factory uses the default ceilings of 2^20 bytes and depth 512 |
| NbtLimiter.Limiter.Increment | api/src/main/java/com/github/retrooper/packetevents/protocol/nbt/NBTLimiter.java:69-76 | the method fails exactly as `IncrementSpec` says and otherwise adds the amount to the charged total, changing nothing else |
| NbtLimiter.Limiter.CheckReadability | api/src/main/java/com/github/retrooper/packetevents/protocol/nbt/NBTLimiter.java:78-84 | an enforcing limiter fails exactly when the length exceeds the readable bytes; the limiter is unchanged either way |
| NbtLimiter.Limiter.EnterDepth | api/src/main/java/com/github/retrooper/packetevents/protocol/nbt/NBTLimiter.java:86-92 | fails exactly at the depth ceiling, otherwise increments the depth only |
| NbtLimiter.Limiter.ExitDepth | api/src/main/java/com/github/retrooper/packetevents/protocol/nbt/NBTLimiter.java:94-100 | fails exactly at depth zero, otherwise decrements the depth only |
| DefaultNbtSerializer.ReadTagType | api/src/main/java/com/github/retrooper/packetevents/protocol/nbt/serializer/DefaultNBTSerializer.java:61 | the type reader consumes one byte and succeeds exactly when that byte is a registered id, giving the kind registered under it, without charging anything |
| DefaultNbtSerializer.ReadUtfFrame | api/src/main/java/com/github/retrooper/packetevents/protocol/nbt/serializer/DefaultNBTSerializer.java:122 | `readUTF` succeeds exactly when the unsigned 16-bit count and that many bytes are there and decode as modified UTF-8; it then consumes exactly the frame and yields its decoding |
| DefaultNbtSerializer.ReadNumber | api/src/main/java/com/github/retrooper/packetevents/protocol/nbt/serializer/DefaultNBTSerializer.java:75-98 | a fixed-width reader succeeds exactly when its charge (9, 24, 12, 16, 12 or 16 bytes) passes and its width is available, consumes exactly that width and gives a tag of its own kind |
| DefaultNbtSerializer.NumberTag | api/src/main/java/com/github/retrooper/packetevents/protocol/nbt/serializer/DefaultNBTSerializer.java:75-98 | the tag built from a fixed-width reader's bytes has that reader's kind |
| DefaultNbtSerializer.ReadStringTag | api/src/main/java/com/github/retrooper/packetevents/protocol/nbt/serializer/DefaultNBTSerializer.java:120-125 | the STRING reader gives a string tag, consumes at least the two-byte count and never un-charges the limiter |
| DefaultNbtSerializer.ReadArrayHeader | api/src/main/java/com/github/retrooper/packetevents/protocol/nbt/serializer/DefaultNBTSerializer.java:101-110 | the array head consumes exactly the 4-byte length and only adds charges to the limiter |
| DefaultNbtSerializer.ArrayHeaderGuards | api/src/main/java/com/github/retrooper/packetevents/protocol/nbt/serializer/DefaultNBTSerializer.java:102-108 | a length of 2^24 or more fails with the array-too-large error right after the 24-byte header charge; an accepted length is the wire length and is below 2^24 |
| DefaultNbtSerializer.ReadArray | api/src/main/java/com/github/retrooper/packetevents/protocol/nbt/serializer/DefaultNBTSerializer.java:99-237 | the BYTE_ARRAY, INT_ARRAY and LONG_ARRAY readers give a tag of their kind after at least the 4-byte length, within the data |
| DefaultNbtSerializer.ReadPayload | api/src/main/java/com/github/retrooper/packetevents/protocol/nbt/serializer/DefaultNBTSerializer.java:70-237 | the reader registered for a kind gives a tag of that kind, stays within the data and only adds charges to the limiter |
| DefaultNbtSerializer.ReadList | api/src/main/java/com/github/retrooper/packetevents/protocol/nbt/serializer/DefaultNBTSerializer.java:128-147 | the LIST reader gives a list tag, consumes at least one byte and leaves the limiter at the depth it started from (the `finally` exitDepth) |
| DefaultNbtSerializer.ReadListBody | api/src/main/java/com/github/retrooper/packetevents/protocol/nbt/serializer/DefaultNBTSerializer.java:131-143 | the LIST body gives a list tag after at least the element kind and the 4-byte size |
| DefaultNbtSerializer.ListBodyShape | api/src/main/java/com/github/retrooper/packetevents/protocol/nbt/serializer/DefaultNBTSerializer.java:133-142 | an accepted list has the element kind and the size its header names, every element of that kind, and no elements when the kind is END |
| DefaultNbtSerializer.ElemsShape | api/src/main/java/com/github/retrooper/packetevents/protocol/nbt/serializer/DefaultNBTSerializer.java:140-142 | the list loop appends exactly `size` elements, all of the element kind, after those already read |
| DefaultNbtSerializer.ListRefChargeAsWritten | api/src/main/java/com/github/retrooper/packetevents/protocol/nbt/serializer/DefaultNBTSerializer.java:138 | the source's `OBJECT_REF_BYTES * size` in 32-bit arithmetic: equal to the true product below 2^29 and congruent to it modulo 2^32 always |
| DefaultNbtSerializer.ListChargeWraps | api/src/main/java/com/github/retrooper/packetevents/protocol/nbt/serializer/DefaultNBTSerializer.java:138 | a list announcing 2^30 + 1 elements is charged 4 bytes as written, which a fresh default limiter accepts, while the true charge is refused |
| DefaultNbtSerializer.ListSizeWithinBudget | api/src/main/java/com/github/retrooper/packetevents/protocol/nbt/serializer/DefaultNBTSerializer.java:131-143 | with the corrected charge, a list accepted under a buffer limiter has at most a quarter of the byte ceiling in elements |
| DefaultNbtSerializer.ReadCompound | api/src/main/java/com/github/retrooper/packetevents/protocol/nbt/serializer/DefaultNBTSerializer.java:158-177 | the COMPOUND reader gives a compound tag, consumes at least one byte and only adds charges to the limiter |
| DefaultNbtSerializer.ReadCompoundBody | api/src/main/java/com/github/retrooper/packetevents/protocol/nbt/serializer/DefaultNBTSerializer.java:161-173 | the compound body gives a compound tag after at least the END id and only adds charges to the limiter |
| DefaultNbtSerializer.ReadEntries | api/src/main/java/com/github/retrooper/packetevents/protocol/nbt/serializer/DefaultNBTSerializer.java:165-172 | the compound loop always consumes at least the END id and stays within the data |
| DefaultNbtSerializer.ReadEntry | api/src/main/java/com/github/retrooper/packetevents/protocol/nbt/serializer/DefaultNBTSerializer.java:166-167 | one entry reads the name and then a value of the announced kind |
| DefaultNbtSerializer.EntryCharge | api/src/main/java/com/github/retrooper/packetevents/protocol/nbt/serializer/DefaultNBTSerializer.java:168-170 | the 36-byte entry charge is made only when the name is not yet in the compound |
| DefaultNbtSerializer.CompoundIsMap | api/src/main/java/com/github/retrooper/packetevents/protocol/nbt/serializer/DefaultNBTSerializer.java:163-173 | an accepted compound has distinct names and holds no END value |
| DefaultNbtSerializer.EntriesAreMap | api/src/main/java/com/github/retrooper/packetevents/protocol/nbt/serializer/DefaultNBTSerializer.java:165-172 | the compound loop keeps names distinct and END values out |
| DefaultNbtSerializer.LastWriteWins | api/src/main/java/com/github/retrooper/packetevents/protocol/nbt/serializer/DefaultNBTSerializer.java:165-171 | on one concrete input, a compound holding the name "a" twice keeps only the last value and charges the entry overhead once, 162 bytes in all (the statement for every input is `ReaderLimits.CompoundLastWriteWins`) |
| ReaderLimits.StringIgnoresLimiter | api/src/main/java/com/github/retrooper/packetevents/protocol/nbt/serializer/DefaultNBTSerializer.java:240-245 | `readString` that succeeds under some limiter state gives the same string at the same position as without limits |
| ReaderLimits.StringTagIgnoresLimiter | api/src/main/java/com/github/retrooper/packetevents/protocol/nbt/serializer/DefaultNBTSerializer.java:120-125 | the STRING reader that succeeds under some limiter state gives the same tag at the same position as without limits |
| ReaderLimits.ArrayIgnoresLimiter | api/src/main/java/com/github/retrooper/packetevents/protocol/nbt/serializer/DefaultNBTSerializer.java:99-237 | an array reader that succeeds under some limiter state gives the same array at the same position as without limits |
| ReaderLimits.PayloadIgnoresLimiter | api/src/main/java/com/github/retrooper/packetevents/protocol/nbt/serializer/DefaultNBTSerializer.java:70-237 | the reader registered for any kind, when it succeeds under some limiter state, gives the same tag and stops at the same byte as under the no-op limiter: a limiter only refuses |
| ReaderLimits.ListIgnoresLimiter | api/src/main/java/com/github/retrooper/packetevents/protocol/nbt/serializer/DefaultNBTSerializer.java:128-147 | the LIST reader that succeeds under some limiter state gives the same list at the same position as without limits |
| ReaderLimits.ListBodyIgnoresLimiter | api/src/main/java/com/github/retrooper/packetevents/protocol/nbt/serializer/DefaultNBTSerializer.java:131-143 | the LIST body that succeeds under some limiter state gives the same list at the same position as without limits |
| ReaderLimits.ElemsIgnoreLimiter | api/src/main/java/com/github/retrooper/packetevents/protocol/nbt/serializer/DefaultNBTSerializer.java:140-142 | the list loop that succeeds under some limiter state reads the same elements up to the same byte as without limits |
| ReaderLimits.CompoundIgnoresLimiter | api/src/main/java/com/github/retrooper/packetevents/protocol/nbt/serializer/DefaultNBTSerializer.java:158-177 | the COMPOUND reader that succeeds under some limiter state gives the same compound at the same position as without limits |
| ReaderLimits.EntriesIgnoreLimiter | api/src/main/java/com/github/retrooper/packetevents/protocol/nbt/serializer/DefaultNBTSerializer.java:165-172 | the compound loop that succeeds under some limiter state builds the same entries up to the same byte as without limits |
| ReaderLimits.EntryIgnoresLimiter | api/src/main/java/com/github/retrooper/packetevents/protocol/nbt/serializer/DefaultNBTSerializer.java:166-167 | one compound entry read under some limiter state is the same name and value at the same position as without limits |
| ReaderLimits.WireEntries | api/src/main/java/com/github/retrooper/packetevents/protocol/nbt/serializer/DefaultNBTSerializer.java:165-172 | the entries a compound holds on the wire, in order, read without limits up to END: each ends after the one before and all within the data |
| ReaderLimits.LastTag | api/src/main/java/com/github/retrooper/packetevents/protocol/nbt/serializer/DefaultNBTSerializer.java:170 | the tag of the last entry with a name exists exactly when some entry has that name |
| ReaderLimits.SetTagHasName | api/src/main/java/com/github/retrooper/packetevents/protocol/nbt/serializer/DefaultNBTSerializer.java:170 | after `setTag` a compound holds exactly its old names and the new one |
| ReaderLimits.SetAllGet | api/src/main/java/com/github/retrooper/packetevents/protocol/nbt/serializer/DefaultNBTSerializer.java:165-172 | `setTag` for each entry in turn leaves every name mapped to the tag of its last entry, and names not set keep their earlier tag |
| ReaderLimits.NewNamesStep | api/src/main/java/com/github/retrooper/packetevents/protocol/nbt/serializer/DefaultNBTSerializer.java:168-170 | an entry adds one name the compound did not hold exactly when its name is new, and the later entries add the rest |
| ReaderLimits.EntryChargesName | api/src/main/java/com/github/retrooper/packetevents/protocol/nbt/serializer/DefaultNBTSerializer.java:240-245 | a successful entry has been charged at least 28 bytes plus two per character of its name |
| ReaderLimits.EntriesOnWire | api/src/main/java/com/github/retrooper/packetevents/protocol/nbt/serializer/DefaultNBTSerializer.java:165-172 | for every input and limiter state, a successful compound loop reads the wire's entries up to the same byte and holds `setTag` applied for each in turn |
| ReaderLimits.EntriesStepCharge | api/src/main/java/com/github/retrooper/packetevents/protocol/nbt/serializer/DefaultNBTSerializer.java:165-171 | one turn of the compound loop charges at least the name and, for a name not held yet, the 36-byte entry overhead |
| ReaderLimits.EntriesCharge | api/src/main/java/com/github/retrooper/packetevents/protocol/nbt/serializer/DefaultNBTSerializer.java:165-172 | under a buffer limiter a successful compound loop has charged at least every name on the wire and 36 bytes once per name not held before |
| ReaderLimits.CompoundLastWriteWins | api/src/main/java/com/github/retrooper/packetevents/protocol/nbt/serializer/DefaultNBTSerializer.java:158-177 | for every accepted compound, each name maps to the tag of its last entry on the wire and no other name is present, and under a buffer limiter at least 48 bytes, every name and 36 bytes per distinct name were charged |
| NbtStream.ReadElements | api/src/main/java/com/github/retrooper/packetevents/protocol/nbt/serializer/DefaultNBTSerializer.java:199-202 | the fill loop of an array reader gives a fresh array holding exactly the `n` elements read in turn from the start position |
| NbtStream.NbtInput.ReadTagType | api/src/main/java/com/github/retrooper/packetevents/protocol/nbt/serializer/DefaultNBTSerializer.java:61 | reading a type off the stream object moves the position and leaves the limiter exactly as the reader function `DefaultNbtSerializer.ReadTagType` says |
| NbtStream.NbtInput.ReadUtf | api/src/main/java/com/github/retrooper/packetevents/protocol/nbt/serializer/DefaultNBTSerializer.java:122 | the stream's `readUTF` agrees with `DefaultNbtSerializer.ReadUtf` on the result and the new position |
| NbtStream.NbtInput.ReadString | api/src/main/java/com/github/retrooper/packetevents/protocol/nbt/serializer/DefaultNBTSerializer.java:240-245 | the stream's `readString` agrees with `DefaultNbtSerializer.ReadString` on the result, the position and the charged limiter |
| NbtStream.NbtInput.ReadNumber | api/src/main/java/com/github/retrooper/packetevents/protocol/nbt/serializer/DefaultNBTSerializer.java:75-98 | the fixed-width readers run on the stream agree with `DefaultNbtSerializer.ReadNumber` |
| NbtStream.NbtInput.ReadStringTag | api/src/main/java/com/github/retrooper/packetevents/protocol/nbt/serializer/DefaultNBTSerializer.java:120-125 | the STRING reader run on the stream agrees with `DefaultNbtSerializer.ReadStringTag` |
| NbtStream.NbtInput.ReadArrayHeader | api/src/main/java/com/github/retrooper/packetevents/protocol/nbt/serializer/DefaultNBTSerializer.java:101-110 | the array head run on the stream, with its limiter calls, agrees with `DefaultNbtSerializer.ReadArrayHeader` |
| NbtStream.NbtInput.ReadArray | api/src/main/java/com/github/retrooper/packetevents/protocol/nbt/serializer/DefaultNBTSerializer.java:99-237 | the array readers, allocating and filling element by element, agree with `DefaultNbtSerializer.ReadArray` |
| NbtStream.NbtInput.ReadPayload | api/src/main/java/com/github/retrooper/packetevents/protocol/nbt/serializer/DefaultNBTSerializer.java:70-237 | dispatching on the kind, the stream readers agree with `DefaultNbtSerializer.ReadPayload` |
| NbtStream.NbtInput.ExitAfter | api/src/main/java/com/github/retrooper/packetevents/protocol/nbt/serializer/DefaultNBTSerializer.java:144-146 | the `finally` exitDepth runs after the body whatever it returned, and its own failure replaces the body's outcome |
| NbtStream.NbtInput.ReadList | api/src/main/java/com/github/retrooper/packetevents/protocol/nbt/serializer/DefaultNBTSerializer.java:128-147 | the LIST reader run on the stream agrees with `DefaultNbtSerializer.ReadList` |
| NbtStream.NbtInput.ReadListBody | api/src/main/java/com/github/retrooper/packetevents/protocol/nbt/serializer/DefaultNBTSerializer.java:131-143 | the LIST body with its guards, charges and counted loop agrees with `DefaultNbtSerializer.ReadListBody` |
| NbtStream.NbtInput.ReadItems | api/src/main/java/com/github/retrooper/packetevents/protocol/nbt/serializer/DefaultNBTSerializer.java:140-142 | the list loop reading `size` elements agrees with `DefaultNbtSerializer.ReadElems` |
| NbtStream.NbtInput.ReadCompound | api/src/main/java/com/github/retrooper/packetevents/protocol/nbt/serializer/DefaultNBTSerializer.java:158-177 | the COMPOUND reader run on the stream agrees with `DefaultNbtSerializer.ReadCompound` |
| NbtStream.NbtInput.ReadCompoundBody | api/src/main/java/com/github/retrooper/packetevents/protocol/nbt/serializer/DefaultNBTSerializer.java:161-173 | the compound loop, charging new names only and keeping the last value, agrees with `DefaultNbtSerializer.ReadCompoundBody` |
| NbtStream.NbtInput.ReadEntry | api/src/main/java/com/github/retrooper/packetevents/protocol/nbt/serializer/DefaultNBTSerializer.java:166-167 | one entry read off the stream agrees with `DefaultNbtSerializer.ReadEntry` |
| NbtStream.NbtOutput.WriteUtf | api/src/main/java/com/github/retrooper/packetevents/protocol/nbt/serializer/DefaultNBTSerializer.java:68 | `writeUTF` fails exactly when the modified UTF-8 encoding exceeds 65535 bytes, writing nothing then; otherwise it appends the 16-bit count and the encoding |
| NbtStream.NbtOutput.WriteTag | api/src/main/java/com/github/retrooper/packetevents/protocol/nbt/serializer/DefaultNBTSerializer.java:70-237 | the writer registered for a tag's kind fails exactly when some string of the tree does not fit `writeUTF`, and otherwise appends exactly the tag's payload |
| NbtStream.NbtOutput.WriteFlat | api/src/main/java/com/github/retrooper/packetevents/protocol/nbt/serializer/DefaultNBTSerializer.java:73-118 | the number and array writers never fail and append exactly the payload |
| NbtStream.NbtOutput.WriteArray | api/src/main/java/com/github/retrooper/packetevents/protocol/nbt/serializer/DefaultNBTSerializer.java:114-118 | an array writer appends the 4-byte length and then the elements |
| NbtStream.NbtOutput.WriteWords | api/src/main/java/com/github/retrooper/packetevents/protocol/nbt/serializer/DefaultNBTSerializer.java:205-211 | the array writer's loop appends each element big-endian in its kind's width, in order |
| NbtStream.NbtOutput.WriteItems | api/src/main/java/com/github/retrooper/packetevents/protocol/nbt/serializer/DefaultNBTSerializer.java:151-153 | the list writer's loop fails exactly when some element does not fit and otherwise appends every element's payload in order |
| NbtStream.NbtOutput.WriteEntries | api/src/main/java/com/github/retrooper/packetevents/protocol/nbt/serializer/DefaultNBTSerializer.java:179-185 | the compound writer's loop fails exactly when some entry does not fit and otherwise appends kind, name and payload of each entry in order |
| NbtStream.NbtOutput.WriteEntry | api/src/main/java/com/github/retrooper/packetevents/protocol/nbt/serializer/DefaultNBTSerializer.java:180-183 | one compound entry is written as its kind id, its name and its payload |
| NbtEncoding.Write | api/src/main/java/com/github/retrooper/packetevents/protocol/nbt/serializer/DefaultNBTSerializer.java:70-237 | the writer fails exactly when some string of the tree does not fit the 16-bit count, and otherwise emits the tag's payload |
| NbtEncoding.Utf | api/src/main/java/com/github/retrooper/packetevents/protocol/nbt/serializer/DefaultNBTSerializer.java:68 | a string whose encoding fits is framed by `writeUTF` as its 16-bit count and its modified UTF-8 bytes |
| NbtEncoding.WordsLength | api/src/main/java/com/github/retrooper/packetevents/protocol/nbt/serializer/DefaultNBTSerializer.java:205-211 | the elements of an array take exactly width times length bytes |
| NbtEncoding.ElementRoundTrip | api/src/main/java/com/github/retrooper/packetevents/protocol/nbt/serializer/DefaultNBTSerializer.java:201 | one element written big-endian in its kind's width reads back as itself |
| NbtEncoding.ElementsRoundTrip | api/src/main/java/com/github/retrooper/packetevents/protocol/nbt/serializer/DefaultNBTSerializer.java:199-211 | the array readers read back, in order, the elements the array writers emitted |
| NbtEncoding.UtfRoundTrip | api/src/main/java/com/github/retrooper/packetevents/protocol/nbt/serializer/DefaultNBTSerializer.java:122 | `readUTF` reads back exactly the string `writeUTF` framed, consuming the frame and charging nothing |
| NbtEncoding.NumberRoundTrip | api/src/main/java/com/github/retrooper/packetevents/protocol/nbt/serializer/DefaultNBTSerializer.java:75-98 | each fixed-width reader reads back the number its writer wrote and stops right after it |
| NbtEncoding.NumberTagRoundTrip | api/src/main/java/com/github/retrooper/packetevents/protocol/nbt/serializer/DefaultNBTSerializer.java:75-98 | the tag rebuilt from a number's written bytes is the number written |
| NbtEncoding.ArrayRoundTrip | api/src/main/java/com/github/retrooper/packetevents/protocol/nbt/serializer/DefaultNBTSerializer.java:99-237 | each array reader reads back the length-prefixed array its writer wrote and stops right after it |
| NbtEncoding.ArrayHeaderRoundTrip | api/src/main/java/com/github/retrooper/packetevents/protocol/nbt/serializer/DefaultNBTSerializer.java:101-110 | the array head reads back the written length, which passes the 2^24 guard |
| NbtEncoding.PayloadRoundTrip | api/src/main/java/com/github/retrooper/packetevents/protocol/nbt/serializer/DefaultNBTSerializer.java:70-237 | for every well-formed tag, the reader registered for its kind, run under the no-op limiter on the bytes its writer emitted, gives back the same tag and stops right after those bytes |
| NbtEncoding.LimitedRoundTrip | api/src/main/java/com/github/retrooper/packetevents/protocol/nbt/serializer/DefaultNBTSerializer.java:70-237 | under any limiter state, the reader run on the bytes the writer emitted for a well-formed tag is either refused or gives back that tag and stops right after those bytes |
| NbtEncoding.ListRoundTrip | api/src/main/java/com/github/retrooper/packetevents/protocol/nbt/serializer/DefaultNBTSerializer.java:126-155 | the LIST reader reads back a well-formed list the LIST writer wrote |
| NbtEncoding.ListHeaderRoundTrip | api/src/main/java/com/github/retrooper/packetevents/protocol/nbt/serializer/DefaultNBTSerializer.java:133-134 | the element kind and the size of a list read back as written |
| NbtEncoding.ItemsRoundTrip | api/src/main/java/com/github/retrooper/packetevents/protocol/nbt/serializer/DefaultNBTSerializer.java:140-153 | the list reader's loop reads back, in order, the elements the list writer's loop wrote |
| NbtEncoding.CompoundRoundTrip | api/src/main/java/com/github/retrooper/packetevents/protocol/nbt/serializer/DefaultNBTSerializer.java:156-187 | the COMPOUND reader reads back a compound with distinct names that the COMPOUND writer wrote |
| NbtEncoding.EntriesRoundTrip | api/src/main/java/com/github/retrooper/packetevents/protocol/nbt/serializer/DefaultNBTSerializer.java:165-185 | the compound reader's loop reads back, in order, the entries the writer's loop wrote, up to and including END; each name is new so each `setTag` appends |
| NbtEncoding.EntryHead | api/src/main/java/com/github/retrooper/packetevents/protocol/nbt/serializer/DefaultNBTSerializer.java:165-166 | an entry's kind and name read back as written |
| NbtEncoding.TagTypeRoundTrip | api/src/main/java/com/github/retrooper/packetevents/protocol/nbt/serializer/DefaultNBTSerializer.java:61-62 | a kind's written id reads back as that kind |
| NbtTypes.IdsAreDistinct | api/src/main/java/com/github/retrooper/packetevents/protocol/nbt/serializer/DefaultNBTSerializer.java:70-237 | the thirteen kinds are registered under distinct ids 0..12, every id in that range names a kind, and no other id does |
| NbtTypes.Get | api/src/main/java/com/github/retrooper/packetevents/protocol/nbt/serializer/DefaultNBTSerializer.java:168 | a compound holds a tag under a name exactly when some entry has that name |
| NbtTypes.SetTag | api/src/main/java/com/github/retrooper/packetevents/protocol/nbt/serializer/DefaultNBTSerializer.java:171 | `setTag` adds one entry for a new name and keeps the size for a name already held |
| NbtTypes.SetTagGet | api/src/main/java/com/github/retrooper/packetevents/protocol/nbt/serializer/DefaultNBTSerializer.java:171 | after `setTag` the name maps to the new tag and every other name maps to what it mapped to before |
| NbtTypes.SetTagNames | api/src/main/java/com/github/retrooper/packetevents/protocol/nbt/serializer/DefaultNBTSerializer.java:171 | after `setTag` every name is the new one or an old one, and distinct names stay distinct |
| NbtTypes.SetTagKeepsNames | api/src/main/java/com/github/retrooper/packetevents/protocol/nbt/serializer/DefaultNBTSerializer.java:171 | `setTag` never drops a name |
| NbtTypes.SetTagAppends | api/src/main/java/com/github/retrooper/packetevents/protocol/nbt/serializer/DefaultNBTSerializer.java:171 | setting a name the compound does not hold appends one entry at the end, keeping insertion order |
| ModifiedUtf8.Encode | api/src/main/java/com/github/retrooper/packetevents/protocol/nbt/serializer/DefaultNBTSerializer.java:68 | the modified UTF-8 encoding takes between one and three bytes per UTF-16 unit |
| ModifiedUtf8.Decode | api/src/main/java/com/github/retrooper/packetevents/protocol/nbt/serializer/DefaultNBTSerializer.java:122 | a successful decoding has no more units than there were bytes |
| ModifiedUtf8.RoundTrip | api/src/main/java/com/github/retrooper/packetevents/protocol/nbt/serializer/DefaultNBTSerializer.java:68 | decoding the modified UTF-8 encoding of any string gives the string back, so `readUTF` inverts `writeUTF` |
| ModifiedUtf8.WriteUtf | api/src/main/java/com/github/retrooper/packetevents/protocol/nbt/serializer/DefaultNBTSerializer.java:68 | `writeUTF` fails exactly when the encoding exceeds 65535 bytes and otherwise emits the 2-byte count plus the encoding |
| PacketStream.OptionalRoundTrip | api/src/main/java/com/github/retrooper/packetevents/protocol/component/builtin/item/ItemProfile.java:83-84 | `readOptional` reads back what `writeOptional` wrote, absent or present, for any reader that inverts its writer |
| PacketStream.ItemsRoundTrip | api/src/main/java/com/github/retrooper/packetevents/protocol/component/builtin/item/ItemProfile.java:86 | reading `n` items reads back, in order, the `n` items the writer wrote |
| PacketStream.ListRoundTrip | api/src/main/java/com/github/retrooper/packetevents/protocol/component/builtin/item/ItemProfile.java:86 | `readList` reads back the length-prefixed list `writeList` wrote |
| PacketStream.StringRoundTrip | api/src/main/java/com/github/retrooper/packetevents/protocol/component/builtin/item/ItemProfile.java:280-282 | `readString(max)` gives the string back when it has at most `max` units and fails with the too-long error otherwise |
| PacketStream.ByteRoundTrip | api/src/main/java/com/github/retrooper/packetevents/wrapper/play/server/WrapperPlayServerExplosion.java:243-245 | `writeByte` then `readByte` always succeeds and consumes one byte, and gives the value back exactly when it is a signed byte |
| Vectors.BlockPositionRoundTrip | api/src/main/java/com/github/retrooper/packetevents/wrapper/play/server/WrapperPlayServerSpawnPosition.java:74-75 | a block position written reads back as the same position |
| Vectors.Vector3dRoundTrip | api/src/main/java/com/github/retrooper/packetevents/wrapper/play/server/WrapperPlayServerExplosion.java:153 | `Vector3d.read` reads back what `Vector3d.write` wrote |
| SpawnPosition.PositionRoundTrip | api/src/main/java/com/github/retrooper/packetevents/wrapper/play/server/WrapperPlayServerSpawnPosition.java:74-75 | the position reads back as written in both layouts: a packed block position from 1.8 on, three ints before |
| SpawnPosition.RoundTrip | api/src/main/java/com/github/retrooper/packetevents/wrapper/play/server/WrapperPlayServerSpawnPosition.java:70-103 | `write` fails exactly when a dimension is needed (from 1.21.9) and absent; otherwise `read` with the same version takes back every field that version sends and leaves the others as they were |
| SpawnPosition.Wrapper.FromEvent | api/src/main/java/com/github/retrooper/packetevents/wrapper/play/server/WrapperPlayServerSpawnPosition.java:50-52 | a wrapper made from a received packet holds its buffer and default fields until read |
| SpawnPosition.Wrapper.constructor | api/src/main/java/com/github/retrooper/packetevents/wrapper/play/server/WrapperPlayServerSpawnPosition.java:54-60 | the position-and-yaw constructor sets the overworld dimension and pitch zero |
| SpawnPosition.Wrapper.WithDimension | api/src/main/java/com/github/retrooper/packetevents/wrapper/play/server/WrapperPlayServerSpawnPosition.java:61-67 | the full constructor stores each field as given, with an empty buffer |
| SpawnPosition.Wrapper.Read | api/src/main/java/com/github/retrooper/packetevents/wrapper/play/server/WrapperPlayServerSpawnPosition.java:70-83 | `read` succeeds exactly when `Decode` does and then holds the decoded fields and the rest of the buffer |
| SpawnPosition.Wrapper.Write | api/src/main/java/com/github/retrooper/packetevents/wrapper/play/server/WrapperPlayServerSpawnPosition.java:86-103 | `write` appends exactly `Encode`'s tokens and fails, writing nothing, when the dimension is needed and absent; the fields are unchanged |
| SpawnPosition.Wrapper.Copy | api/src/main/java/com/github/retrooper/packetevents/wrapper/play/server/WrapperPlayServerSpawnPosition.java:106-111 | `copy` takes every field of the other wrapper and keeps the buffer |
| PlayerRotation.RoundTrip | api/src/main/java/com/github/retrooper/packetevents/wrapper/play/server/WrapperPlayServerPlayerRotation.java:59-80 | `read` with the same version takes back yaw and pitch always and the relative flags from 1.21.9 on; older versions leave the flags as they were |
| PlayerRotation.FlagsSentFrom1_21_9 | api/src/main/java/com/github/retrooper/packetevents/wrapper/play/server/WrapperPlayServerPlayerRotation.java:71-80 | before 1.21.9 two rotations with the same angles encode alike whatever their flags; from 1.21.9 they encode alike exactly when equal |
| PlayerRotation.CopyAsWrittenLosesFlags | api/src/main/java/com/github/retrooper/packetevents/wrapper/play/server/WrapperPlayServerPlayerRotation.java:83-86 | as written, copying a relative rotation into an absolute one gives a packet that encodes differently from its source at 1.21.9 |
| PlayerRotation.Wrapper.FromEvent | api/src/main/java/com/github/retrooper/packetevents/wrapper/play/server/WrapperPlayServerPlayerRotation.java:42-44 | a wrapper made from a received packet holds its buffer and zero, absolute fields until read |
| PlayerRotation.Wrapper.constructor | api/src/main/java/com/github/retrooper/packetevents/wrapper/play/server/WrapperPlayServerPlayerRotation.java:46-48 | the two-angle constructor makes both angles absolute |
| PlayerRotation.Wrapper.WithFlags | api/src/main/java/com/github/retrooper/packetevents/wrapper/play/server/WrapperPlayServerPlayerRotation.java:50-56 | the full constructor stores each field as given |
| PlayerRotation.Wrapper.Read | api/src/main/java/com/github/retrooper/packetevents/wrapper/play/server/WrapperPlayServerPlayerRotation.java:59-68 | `read` succeeds exactly when `Decode` does and then holds the decoded fields and the rest of the buffer |
| PlayerRotation.Wrapper.Write | api/src/main/java/com/github/retrooper/packetevents/wrapper/play/server/WrapperPlayServerPlayerRotation.java:71-80 | `write` appends exactly `Encode`'s tokens and leaves the fields unchanged |
| PlayerRotation.Wrapper.Copy | api/src/main/java/com/github/retrooper/packetevents/wrapper/play/server/WrapperPlayServerPlayerRotation.java:83-86 | `copy` takes every field of the other wrapper, flags included, and keeps the buffer |
| Effect.LegacyPositionRoundTrip | api/src/main/java/com/github/retrooper/packetevents/wrapper/play/server/WrapperPlayServerEffect.java:55-68 | before 1.8 the position goes as int, unsigned byte, int, so it reads back with its y taken modulo 256 |
| Effect.RoundTrip | api/src/main/java/com/github/retrooper/packetevents/wrapper/play/server/WrapperPlayServerEffect.java:50-73 | `read` with the same version takes back what `write` wrote, with the y coordinate reduced modulo 256 before 1.8 |
| Effect.LegacyKeepsPosition | api/src/main/java/com/github/retrooper/packetevents/wrapper/play/server/WrapperPlayServerEffect.java:55-68 | before 1.8 an event survives the round trip exactly when its y coordinate is in 0..255 |
| Effect.Wrapper.FromEvent | api/src/main/java/com/github/retrooper/packetevents/wrapper/play/server/WrapperPlayServerEffect.java:37-39 | a wrapper made from a received packet holds its buffer and default fields until read |
| Effect.Wrapper.constructor | api/src/main/java/com/github/retrooper/packetevents/wrapper/play/server/WrapperPlayServerEffect.java:41-47 | the constructor stores each field as given, with an empty buffer |
| Effect.Wrapper.Read | api/src/main/java/com/github/retrooper/packetevents/wrapper/play/server/WrapperPlayServerEffect.java:50-59 | `read` succeeds exactly when `Decode` does and then holds the decoded fields and the rest of the buffer |
| Effect.Wrapper.Write | api/src/main/java/com/github/retrooper/packetevents/wrapper/play/server/WrapperPlayServerEffect.java:62-73 | `write` appends exactly `Encode`'s tokens and leaves the fields unchanged |
| Effect.Wrapper.Copy | api/src/main/java/com/github/retrooper/packetevents/wrapper/play/server/WrapperPlayServerEffect.java:76-81 | `copy` takes every field of the other wrapper and keeps the buffer |
| WorldBorder.Id | api/src/main/java/com/github/retrooper/packetevents/wrapper/play/server/WrapperPlayServerWorldBorder.java:261-263 | the modern id of an action is its position in declaration order |
| WorldBorder.FromId | api/src/main/java/com/github/retrooper/packetevents/wrapper/play/server/WrapperPlayServerWorldBorder.java:269-271 | `fromId` succeeds exactly on 0..5 (anything else is the out-of-bounds failure) and gives the action whose id that is |
| WorldBorder.FromLegacyId | api/src/main/java/com/github/retrooper/packetevents/wrapper/play/server/WrapperPlayServerWorldBorder.java:273-280 | the loop over the actions returns the first one with the given legacy id, or null, as `LegacyLookup` says |
| WorldBorder.IdsRoundTrip | api/src/main/java/com/github/retrooper/packetevents/wrapper/play/server/WrapperPlayServerWorldBorder.java:247-280 | `fromId` inverts `getId`; `fromLegacyId` inverts `getLegacyId`; a legacy id finds no action exactly outside 1..6, and a found action has that legacy id |
| WorldBorder.LegacyLookupSpec | api/src/main/java/com/github/retrooper/packetevents/wrapper/play/server/WrapperPlayServerWorldBorder.java:273-280 | the lookup from position `i` finds an action exactly when some later action has the legacy id, and what it finds has it |
| WorldBorder.PayloadRoundTrip | api/src/main/java/com/github/retrooper/packetevents/wrapper/play/server/WrapperPlayServerWorldBorder.java:99-150 | for each action, the fields its branch of `read` takes back are those its branch of `write` wrote, the others untouched |
| WorldBorder.RoundTrip | api/src/main/java/com/github/retrooper/packetevents/wrapper/play/server/WrapperPlayServerWorldBorder.java:95-151 | `write` fails exactly when the action is null; otherwise `read` with the same version gives back the action and the fields that action carries, the others as they were |
| WorldBorder.UnknownIds | api/src/main/java/com/github/retrooper/packetevents/wrapper/play/server/WrapperPlayServerWorldBorder.java:96-98 | before 1.12 an unknown id reads as a null action and no payload; from 1.12 on an id outside 0..5 fails the read |
| WorldBorder.Wrapper.FromEvent | api/src/main/java/com/github/retrooper/packetevents/wrapper/play/server/WrapperPlayServerWorldBorder.java:45-47 | a wrapper made from a received packet holds its buffer, a null action and zero fields until read |
| WorldBorder.Wrapper.constructor | api/src/main/java/com/github/retrooper/packetevents/wrapper/play/server/WrapperPlayServerWorldBorder.java:49-92 | each typed constructor sets its action and the fields that action carries, the rest zero |
| WorldBorder.Wrapper.Read | api/src/main/java/com/github/retrooper/packetevents/wrapper/play/server/WrapperPlayServerWorldBorder.java:95-122 | `read` succeeds exactly when `Decode` does and then holds the decoded action, its fields and the rest of the buffer |
| WorldBorder.Wrapper.ReadFields | api/src/main/java/com/github/retrooper/packetevents/wrapper/play/server/WrapperPlayServerWorldBorder.java:99-121 | the if-chain over the action reads exactly the fields `ReadPayload` reads, in order |
| WorldBorder.Wrapper.ReadInitializeFields | api/src/main/java/com/github/retrooper/packetevents/wrapper/play/server/WrapperPlayServerWorldBorder.java:108-116 | the INITIALIZE branch reads its eight fields as `ReadPayload` does |
| WorldBorder.Wrapper.ReadLerpFields | api/src/main/java/com/github/retrooper/packetevents/wrapper/play/server/WrapperPlayServerWorldBorder.java:102-104 | the LERP_SIZE fields are two doubles and a VarLong |
| WorldBorder.Wrapper.ReadCenterFields | api/src/main/java/com/github/retrooper/packetevents/wrapper/play/server/WrapperPlayServerWorldBorder.java:106-107 | the SET_CENTER fields are two doubles |
| WorldBorder.Wrapper.Write | api/src/main/java/com/github/retrooper/packetevents/wrapper/play/server/WrapperPlayServerWorldBorder.java:125-151 | `write` fails, writing nothing, exactly when the action is null, and otherwise appends exactly `Encode`'s tokens; the fields are unchanged |
| WorldBorder.Wrapper.Copy | api/src/main/java/com/github/retrooper/packetevents/wrapper/play/server/WrapperPlayServerWorldBorder.java:154-165 | `copy` takes every field of the other wrapper and keeps the buffer |
| Explosion.Ordinal | api/src/main/java/com/github/retrooper/packetevents/wrapper/play/server/WrapperPlayServerExplosion.java:458-463 | a block interaction's id is its position in declaration order |
| Explosion.InteractionOf | api/src/main/java/com/github/retrooper/packetevents/wrapper/play/server/WrapperPlayServerExplosion.java:191 | `values()[id]` succeeds exactly for ids 0..3, giving the interaction with that ordinal, and fails on the id otherwise |
| Explosion.FloatVectorRoundTrip | api/src/main/java/com/github/retrooper/packetevents/wrapper/play/server/WrapperPlayServerExplosion.java:185-188 | three floats written from a vector's narrowed components read back as the widened narrowed components |
| Explosion.PositionRoundTrip | api/src/main/java/com/github/retrooper/packetevents/wrapper/play/server/WrapperPlayServerExplosion.java:152-156 | the position reads back as written: exactly as a `Vector3d` from 1.19.3 on, through float before |
| Explosion.FloorAgainstTruncation | api/src/main/java/com/github/retrooper/packetevents/wrapper/play/server/WrapperPlayServerExplosion.java:281-295 | the 1.14 floor is never above the older truncation toward zero, and equals it on non-negative coordinates |
| Explosion.ScaledMonotone | api/src/main/java/com/github/retrooper/packetevents/wrapper/play/server/WrapperPlayServerExplosion.java:285-292 | flooring a scaled value is never above truncating it, and the two agree on non-negative values |
| Explosion.Shifted | api/src/main/java/com/github/retrooper/packetevents/wrapper/play/server/WrapperPlayServerExplosion.java:178-183 | the records read back are, one for one, the written records shifted from the written floor to the read floor |
| Explosion.WriteRecordsSnoc | api/src/main/java/com/github/retrooper/packetevents/wrapper/play/server/WrapperPlayServerExplosion.java:242-246 | the record loop's output for one more record is the output so far followed by that record's three bytes |
| Explosion.RecordRoundTrip | api/src/main/java/com/github/retrooper/packetevents/wrapper/play/server/WrapperPlayServerExplosion.java:179-182 | one record written as three byte offsets from the floor reads back shifted to the reader's floor |
| Explosion.RecordsRoundTrip | api/src/main/java/com/github/retrooper/packetevents/wrapper/play/server/WrapperPlayServerExplosion.java:178-183 | the record loop reads back, in order, each written record shifted to the reader's floor |
| Explosion.OffsetRoundTrip | api/src/main/java/com/github/retrooper/packetevents/wrapper/play/server/WrapperPlayServerExplosion.java:179 | a coordinate written as a byte offset from a floor and read back against the same floor comes back unchanged exactly when its 32-bit offset fits a signed byte |
| Explosion.RecordsExact | api/src/main/java/com/github/retrooper/packetevents/wrapper/play/server/WrapperPlayServerExplosion.java:178-183 | the records come back unchanged exactly when each lies within a signed byte of the floor in every coordinate |
| Explosion.TotalsRoundTrip | api/src/main/java/com/github/retrooper/packetevents/wrapper/play/server/WrapperPlayServerExplosion.java:159-162 | from 1.21.9 strength and block count read back as written; before, nothing is read |
| Explosion.EffectsModernRoundTrip | api/src/main/java/com/github/retrooper/packetevents/wrapper/play/server/WrapperPlayServerExplosion.java:164-170 | the particle, the sound and (from 1.21.9) the block particles read back as written, and the interaction becomes DESTROY_BLOCKS |
| Explosion.ModernRoundTrip | api/src/main/java/com/github/retrooper/packetevents/wrapper/play/server/WrapperPlayServerExplosion.java:157-171 | from 1.21.2 the reader takes back knockback, particle and sound, plus strength, block count and block particles from 1.21.9, and sets DESTROY_BLOCKS |
| Explosion.FloatInverse | api/src/main/java/com/github/retrooper/packetevents/wrapper/play/server/WrapperPlayServerExplosion.java:199 | `readFloat` inverts `writeFloat` on raw float bits |
| Explosion.StaticSoundRoundTrip | api/src/main/java/com/github/retrooper/packetevents/wrapper/play/server/WrapperPlayServerExplosion.java:198-200 | the identifier and optional range written for a sound read back as a static sound with the same key and range |
| Explosion.EffectsRoundTrip | api/src/main/java/com/github/retrooper/packetevents/wrapper/play/server/WrapperPlayServerExplosion.java:190-206 | from 1.20.3 the interaction, both particles and the sound read back as written (a static sound before 1.20.5); before 1.20.3 the reader sets DESTROY_BLOCKS and the empty sound |
| Explosion.RecordsOnRoundTrip | api/src/main/java/com/github/retrooper/packetevents/wrapper/play/server/WrapperPlayServerExplosion.java:176-206 | after the count, the records, the knockback and the effects read back in order |
| Explosion.LegacyRoundTrip | api/src/main/java/com/github/retrooper/packetevents/wrapper/play/server/WrapperPlayServerExplosion.java:172-207 | before 1.21.2 the reader takes back strength, the shifted records and the float knockback, then the effects |
| Explosion.RoundTrip | api/src/main/java/com/github/retrooper/packetevents/wrapper/play/server/WrapperPlayServerExplosion.java:151-265 | `write` fails exactly when it would dereference a null field: records, knockback or (from 1.20.3) the interaction below 1.21.2, the block particles from 1.21.9; otherwise `read` with the same version gives back `Carried`: each field the version sends, as the wire keeps it, and the previous value of every other |
| Explosion.ModernPacketRoundTrip | api/src/main/java/com/github/retrooper/packetevents/wrapper/play/server/WrapperPlayServerExplosion.java:151-171 | from 1.21.2, with block particles present where 1.21.9 sends them, the packet is the position and the modern fields, and reads back as `Carried` |
| Explosion.LegacyPacketRoundTrip | api/src/main/java/com/github/retrooper/packetevents/wrapper/play/server/WrapperPlayServerExplosion.java:151-207 | below 1.21.2 the packet is the position and the legacy fields, and reads back as `Carried` |
| Explosion.RecordsSurvive | api/src/main/java/com/github/retrooper/packetevents/wrapper/play/server/WrapperPlayServerExplosion.java:172-183 | from 1.19.3 to 1.21.1 the records come back unchanged exactly when each lies within a signed byte of the floored position |
| Explosion.FieldsByVersion | api/src/main/java/com/github/retrooper/packetevents/wrapper/play/server/WrapperPlayServerExplosion.java:151-265 | strength is lost only from 1.21.2 to 1.21.8; block count and block particles travel only from 1.21.9; the small particle only from 1.20.3 to 1.21.1; the interaction is DESTROY_BLOCKS whenever it is not sent; the sound is the empty sound before 1.20.3 |
| Explosion.BlockCountAfterRead | api/src/main/java/com/github/retrooper/packetevents/wrapper/play/server/WrapperPlayServerExplosion.java:322-327 | after a read on a fresh wrapper, `getBlockCount` gives the sent int from 1.21.9 and the number of records read below 1.21.2 |
| Explosion.ConstructedUnwritable | api/src/main/java/com/github/retrooper/packetevents/wrapper/play/server/WrapperPlayServerExplosion.java:116-148 | from 1.21.9 a packet built by either constructor cannot be written, since neither sets the block particles that `write` dereferences |
| Explosion.WithBlockParticles | api/src/main/java/com/github/retrooper/packetevents/wrapper/play/server/WrapperPlayServerExplosion.java:229 | the corrected state: block particles are always present, an empty list where none was set, and nothing else changes |
| Explosion.DefaultedRoundTrip | api/src/main/java/com/github/retrooper/packetevents/wrapper/play/server/WrapperPlayServerExplosion.java:151-230 | with block particles defaulted, every packet from 1.21.2 on can be written and reads back as `Carried` |
| Explosion.Wrapper.FromEvent | api/src/main/java/com/github/retrooper/packetevents/wrapper/play/server/WrapperPlayServerExplosion.java:90-92 | a wrapper made from a received packet holds its buffer and default fields, with records, knockback, interaction and block particles null, until read |
| Explosion.Wrapper.constructor | api/src/main/java/com/github/retrooper/packetevents/wrapper/play/server/WrapperPlayServerExplosion.java:116-128 | the pre-1.21.2 constructor stores position, strength, records, knockback, both particles, interaction and sound, and leaves the block particles null |
| Explosion.Wrapper.Modern | api/src/main/java/com/github/retrooper/packetevents/wrapper/play/server/WrapperPlayServerExplosion.java:139-148 | the 1.21.2 constructor stores position, the optional knockback, the particle and the sound, and leaves records, interaction and block particles null |
| Explosion.Wrapper.Read | api/src/main/java/com/github/retrooper/packetevents/wrapper/play/server/WrapperPlayServerExplosion.java:151-208 | `read` succeeds exactly when `Decode` does and then holds the decoded fields and the rest of the buffer |
| Explosion.Wrapper.ReadModernFields | api/src/main/java/com/github/retrooper/packetevents/wrapper/play/server/WrapperPlayServerExplosion.java:157-171 | the 1.21.2 branch of `read` takes exactly what `DecodeModern` takes |
| Explosion.Wrapper.ReadEffectsModernFields | api/src/main/java/com/github/retrooper/packetevents/wrapper/play/server/WrapperPlayServerExplosion.java:164-170 | particle, sound and block particles are read as `DecodeEffectsModern` says |
| Explosion.Wrapper.ReadLegacyFields | api/src/main/java/com/github/retrooper/packetevents/wrapper/play/server/WrapperPlayServerExplosion.java:172-207 | the legacy branch of `read` takes exactly what `DecodeLegacy` takes |
| Explosion.Wrapper.ReadRecordsField | api/src/main/java/com/github/retrooper/packetevents/wrapper/play/server/WrapperPlayServerExplosion.java:178-183 | the record loop reads `n` records against the floor, as `ReadRecords` says |
| Explosion.Wrapper.ReadEffectsFields | api/src/main/java/com/github/retrooper/packetevents/wrapper/play/server/WrapperPlayServerExplosion.java:190-206 | the effects are read as `DecodeEffects` says |
| Explosion.Wrapper.ReadInteractionAndEffects | api/src/main/java/com/github/retrooper/packetevents/wrapper/play/server/WrapperPlayServerExplosion.java:190-201 | from 1.20.3 the block interaction, both particles and the sound are read as `DecodeEffects` says |
| Explosion.Wrapper.Write | api/src/main/java/com/github/retrooper/packetevents/wrapper/play/server/WrapperPlayServerExplosion.java:211-265 | `write` fails, writing nothing, exactly when `Encode` does, and otherwise appends exactly `Encode`'s tokens; the fields are unchanged |
| Explosion.Wrapper.WriteModern | api/src/main/java/com/github/retrooper/packetevents/wrapper/play/server/WrapperPlayServerExplosion.java:213-230 | from 1.21.2, with block particles present where 1.21.9 sends them, `write` succeeds and appends exactly `Encode`'s tokens |
| Explosion.Wrapper.WriteLegacy | api/src/main/java/com/github/retrooper/packetevents/wrapper/play/server/WrapperPlayServerExplosion.java:213-264 | below 1.21.2, with records, knockback and (from 1.20.3) block interaction present, `write` appends exactly `Encode`'s tokens |
| Explosion.Wrapper.WriteModernFields | api/src/main/java/com/github/retrooper/packetevents/wrapper/play/server/WrapperPlayServerExplosion.java:219-230 | the 1.21.2 branch of `write` appends exactly `EncodeModern`'s tokens |
| Explosion.Wrapper.WriteLegacyFields | api/src/main/java/com/github/retrooper/packetevents/wrapper/play/server/WrapperPlayServerExplosion.java:231-264 | the legacy branch of `write` appends exactly `EncodeLegacy`'s tokens |
| Explosion.Wrapper.WriteRecordsField | api/src/main/java/com/github/retrooper/packetevents/wrapper/play/server/WrapperPlayServerExplosion.java:242-246 | the record loop appends each record's three byte offsets from the floor, in order |
| Explosion.Wrapper.Copy | api/src/main/java/com/github/retrooper/packetevents/wrapper/play/server/WrapperPlayServerExplosion.java:268-279 | `copy` takes every field of the other wrapper, block particles included, and keeps the buffer |
| Explosion.Wrapper.GetRecords | api/src/main/java/com/github/retrooper/packetevents/wrapper/play/server/WrapperPlayServerExplosion.java:339-344 | `getRecords` replaces null records by an empty list, stores it and returns the records |
| PlayerModelType.CodecSpec | api/src/main/java/com/github/retrooper/packetevents/protocol/player/PlayerModelType.java:30-34 | the enum codec builds (the names "slim" and "wide" are distinct), round-trips both values, and refuses exactly the strings that are neither name with the unknown-name error |
| PlayerModelType.ModelCodec | api/src/main/java/com/github/retrooper/packetevents/protocol/player/PlayerModelType.java:34 | the codec decodes back every value it encodes |
| PlayerModelType.ReadWrite | api/src/main/java/com/github/retrooper/packetevents/protocol/player/PlayerModelType.java:42-48 | `read` takes back what `write` wrote |
| PlayerModelType.WriteRead | api/src/main/java/com/github/retrooper/packetevents/protocol/player/PlayerModelType.java:42-48 | every boolean reads as a model (true exactly as SLIM) and that model writes the same boolean back |
| Vector2i.AsLong | api/src/main/java/com/github/retrooper/packetevents/util/Vector2i.java:47-49 | the low 32 bits of the packed long are x and the high 32 bits are z |
| Vector2i.FromLong | api/src/main/java/com/github/retrooper/packetevents/util/Vector2i.java:43-45 | x takes the low 32 bits of the long and z the high 32 bits |
| Vector2i.FromAsLong | api/src/main/java/com/github/retrooper/packetevents/util/Vector2i.java:43-49 | unpacking a packed vector gives the vector back |
| Vector2i.AsFromLong | api/src/main/java/com/github/retrooper/packetevents/util/Vector2i.java:43-49 | packing an unpacked long gives the long back, so the two are inverse bijections |
| Vector2i.ReadWrite | api/src/main/java/com/github/retrooper/packetevents/util/Vector2i.java:35-41 | `read` takes back what `write` wrote |
| Vector2i.WriteRead | api/src/main/java/com/github/retrooper/packetevents/util/Vector2i.java:35-41 | every long reads as a vector that writes the same long back |
| LpVector3d.VarIntRoundTrip | api/src/main/java/com/github/retrooper/packetevents/protocol/util/LpVector3d.java:50 | the VarInt carrying the scale's high part reads back as written for every 32-bit unsigned value |
| LpVector3d.ZeroFastPath | api/src/main/java/com/github/retrooper/packetevents/protocol/util/LpVector3d.java:42-45 | a zero first byte reads as the zero vector and consumes nothing more; the zero vector is written as that single byte |
| LpVector3d.HeaderRules | api/src/main/java/com/github/retrooper/packetevents/protocol/util/LpVector3d.java:68-79 | the low three bits hold the scale's two low bits and the continuation bit, set exactly when the scale needs more than two bits; a packet is six bytes plus the VarInt when large |
| LpVector3d.FirstByte | api/src/main/java/com/github/retrooper/packetevents/protocol/util/LpVector3d.java:74-75 | a scaled packet's first byte is never zero and carries the scale's low bits and the continuation flag |
| LpVector3d.ReadFieldsBounded | api/src/main/java/com/github/retrooper/packetevents/protocol/util/LpVector3d.java:93-95 | every field decoded from a scaled packet is clamped to 0..32766 |
| LpVector3d.BitsFields | api/src/main/java/com/github/retrooper/packetevents/protocol/util/LpVector3d.java:71-74 | the 48 packed bits hold the header in bits 0-2 and the three 15-bit fields at shifts 3, 18 and 33 |
| LpVector3d.BytesReassemble | api/src/main/java/com/github/retrooper/packetevents/protocol/util/LpVector3d.java:46 | the short written little-endian and the int written big-endian reassemble into the 48 packed bits |
| LpVector3d.RoundTrip | api/src/main/java/com/github/retrooper/packetevents/protocol/util/LpVector3d.java:41-80 | the reader takes back the quantized form the writer emitted (scale and three packed fields, or zero) and stops right after it |
| LpVector3d.ScaledRoundTrip | api/src/main/java/com/github/retrooper/packetevents/protocol/util/LpVector3d.java:46-51 | after the first byte, the rest of the bits and the optional scale VarInt read back as written |
| ItemLock.Read | api/src/main/java/com/github/retrooper/packetevents/protocol/component/builtin/item/ItemLock.java:59-65 | from 1.21.2 a lock read from NBT has the fallback code; before, a lock read from an NBT string has an empty predicate; a tag of the wrong kind fails (the cast of the raw tag, the compound read) |
| ItemLock.RoundTrip | api/src/main/java/com/github/retrooper/packetevents/protocol/component/builtin/item/ItemLock.java:59-73 | `read` takes back what `write` wrote: the predicate from 1.21.2 (the code becoming the fallback), the code before (the predicate becoming empty) |
| ItemLock.ReadIsStable | api/src/main/java/com/github/retrooper/packetevents/protocol/component/builtin/item/ItemLock.java:59-73 | a lock that was read writes and reads back unchanged at the same version |
| TypedData.Read | api/src/main/java/com/github/retrooper/packetevents/protocol/component/builtin/TypedEntityData.java:50-55 | before 1.21.9 the data read carries the fallback type (the pig, or the furnace for block entities), whatever is sent |
| TypedData.RoundTrip | api/src/main/java/com/github/retrooper/packetevents/protocol/component/builtin/TypedEntityData.java:50-62 | `read` takes back the compound always and the type from 1.21.9; before, the type becomes the fallback |
| TypedData.TypeNotSentBefore1_21_9 | api/src/main/java/com/github/retrooper/packetevents/protocol/component/builtin/TypedBlockEntityData.java:57-62 | before 1.21.9 two values with the same compound are written alike |
| ParticleSpellData.Read | api/src/main/java/com/github/retrooper/packetevents/protocol/particle/data/ParticleSpellData.java:44-51 | before 1.21.9 nothing is read and the data is white with power 1 |
| ParticleSpellData.RoundTrip | api/src/main/java/com/github/retrooper/packetevents/protocol/particle/data/ParticleSpellData.java:44-58 | `read` takes back colour and power from 1.21.9 and gives the default before |
| ParticleSpellData.Decode | api/src/main/java/com/github/retrooper/packetevents/protocol/particle/data/ParticleSpellData.java:60-65 | a compound with neither key decodes to white with power 1 |
| ParticleSpellData.KeysDistinct | api/src/main/java/com/github/retrooper/packetevents/protocol/particle/data/ParticleSpellData.java:60-77 | the keys "color" and "power" differ, so setting one never replaces the other |
| ParticleSpellData.NbtRoundTrip | api/src/main/java/com/github/retrooper/packetevents/protocol/particle/data/ParticleSpellData.java:60-77 | from 1.21.9 decoding what `encode` added to a compound without those keys gives the data back, and the default adds nothing |
| ParticleSpellData.OlderClientsGetDefault | api/src/main/java/com/github/retrooper/packetevents/protocol/particle/data/ParticleSpellData.java:67-77 | before 1.21.9 `encode` adds nothing, so the data decodes as the default |
| ParticlePowerData.Read | api/src/main/java/com/github/retrooper/packetevents/protocol/particle/data/ParticlePowerData.java:41-44 | before 1.21.9 nothing is read and the power is 1 |
| ParticlePowerData.RoundTrip | api/src/main/java/com/github/retrooper/packetevents/protocol/particle/data/ParticlePowerData.java:41-50 | `read` takes back the power from 1.21.9 and gives power 1 before |
| ParticlePowerData.Decode | api/src/main/java/com/github/retrooper/packetevents/protocol/particle/data/ParticlePowerData.java:52-56 | a compound without "power" decodes to power 1 |
| ParticlePowerData.NbtRoundTrip | api/src/main/java/com/github/retrooper/packetevents/protocol/particle/data/ParticlePowerData.java:52-63 | from 1.21.9 decoding what `encode` added gives the power back; before 1.21.9, or for power 1, `encode` adds nothing |
| ItemProfile.NameInverse | api/src/main/java/com/github/retrooper/packetevents/protocol/component/builtin/item/ItemProfile.java:81-83 | `readString(16)` inverts `writeString` on names of at most 16 units |
| ItemProfile.SignatureInverse | api/src/main/java/com/github/retrooper/packetevents/protocol/component/builtin/item/ItemProfile.java:282 | `readString(1024)` inverts `writeString` on signatures of at most 1024 units |
| ItemProfile.IdInverse | api/src/main/java/com/github/retrooper/packetevents/protocol/component/builtin/item/ItemProfile.java:84 | `readUUID` inverts `writeUUID` |
| ItemProfile.LocationInverse | api/src/main/java/com/github/retrooper/packetevents/protocol/component/builtin/item/ItemProfile.java:363-365 | `ResourceLocation.read` inverts its writer |
| ItemProfile.ModelInverse | api/src/main/java/com/github/retrooper/packetevents/protocol/component/builtin/item/ItemProfile.java:366 | `PlayerModelType.read` inverts its writer |
| ItemProfile.PropertyRoundTrip | api/src/main/java/com/github/retrooper/packetevents/protocol/component/builtin/item/ItemProfile.java:279-291 | a property within the caps 64, 32767 and 1024 reads back as written, signature included |
| ItemProfile.PropertyInverse | api/src/main/java/com/github/retrooper/packetevents/protocol/component/builtin/item/ItemProfile.java:279-291 | `Property.read` inverts `Property.write` on properties within the caps |
| ItemProfile.OptionalLocation | api/src/main/java/com/github/retrooper/packetevents/protocol/component/builtin/item/ItemProfile.java:363-365 | an optional resource location reads back as written, absent or present |
| ItemProfile.OptionalModel | api/src/main/java/com/github/retrooper/packetevents/protocol/component/builtin/item/ItemProfile.java:366 | an optional model reads back as written, absent or present |
| ItemProfile.SkinPatchRoundTrip | api/src/main/java/com/github/retrooper/packetevents/protocol/component/builtin/item/ItemProfile.java:362-375 | the four optional fields of a skin patch read back as written |
| ItemProfile.FlagRoundTrip | api/src/main/java/com/github/retrooper/packetevents/protocol/component/builtin/item/ItemProfile.java:78-100 | the reader's partial flag is the writer's: from 1.21.9 it reads the boolean written (set iff name and id are both present); before, it reads nothing |
| ItemProfile.HeadRoundTrip | api/src/main/java/com/github/retrooper/packetevents/protocol/component/builtin/item/ItemProfile.java:79-107 | name and id read back as written in both forms: id then name when complete, two optionals when partial |
| ItemProfile.PatchRoundTrip | api/src/main/java/com/github/retrooper/packetevents/protocol/component/builtin/item/ItemProfile.java:87-88 | the skin patch reads back from 1.21.9 and is empty before |
| ItemProfile.PropertiesRoundTrip | api/src/main/java/com/github/retrooper/packetevents/protocol/component/builtin/item/ItemProfile.java:86 | the property list reads back as written |
| ItemProfile.RoundTrip | api/src/main/java/com/github/retrooper/packetevents/protocol/component/builtin/item/ItemProfile.java:75-112 | `read` takes back name, id and properties of every profile within the caps, and the skin patch from 1.21.9 (empty before) |
| ItemProfile.CompleteFlag | api/src/main/java/com/github/retrooper/packetevents/protocol/component/builtin/item/ItemProfile.java:92-107 | from 1.21.9 the first token is the complete flag, true iff name and id are both present; before, it is the presence flag of the name's optional |
| ItemProfile.PropertyKeysDistinct | api/src/main/java/com/github/retrooper/packetevents/protocol/component/builtin/item/ItemProfile.java:227-229 | the keys "name", "value" and "signature" differ |
| ItemProfile.KeysDistinct | api/src/main/java/com/github/retrooper/packetevents/protocol/component/builtin/item/ItemProfile.java:120-139 | the profile's keys "id", "name", "properties" and the skin-patch keys are pairwise distinct |
| ItemProfile.PropertyCodecRoundTrip | api/src/main/java/com/github/retrooper/packetevents/protocol/component/builtin/item/ItemProfile.java:223-243 | the property codec decodes back every property it encodes |
| ItemProfile.PropertyNbtRoundTrip | api/src/main/java/com/github/retrooper/packetevents/protocol/component/builtin/item/ItemProfile.java:223-243 | decoding an encoded property gives it back, with the signature present exactly when it was |
| ItemProfile.PropertyRequiresStrings | api/src/main/java/com/github/retrooper/packetevents/protocol/component/builtin/item/ItemProfile.java:226-229 | a property compound decodes exactly when "name" and "value" hold strings; a missing name is reported as such |
| ItemProfile.ListEncodingNotCompound | api/src/main/java/com/github/retrooper/packetevents/protocol/component/builtin/item/ItemProfile.java:245-266 | the encoded list form is never a compound, so decoding takes the list path |
| ItemProfile.PropertyMapRoundTrip | api/src/main/java/com/github/retrooper/packetevents/protocol/component/builtin/item/ItemProfile.java:245-267 | the property-map codec decodes back every property list it encodes |
| ItemProfile.MapFormSpec | api/src/main/java/com/github/retrooper/packetevents/protocol/component/builtin/item/ItemProfile.java:250-258 | the map form decodes exactly when every value is a string list, and gives properties without signatures under names of the compound |
| ItemProfile.SkinPatchNbtRoundTrip | api/src/main/java/com/github/retrooper/packetevents/protocol/component/builtin/item/ItemProfile.java:377-398 | decoding the keys `encode` added to a compound without them gives the skin patch back, and no other key changes |
| ItemProfile.ProfileEntries | api/src/main/java/com/github/retrooper/packetevents/protocol/component/builtin/item/ItemProfile.java:128-138 | the compound `encode` builds holds "id", "name" and "properties" exactly when present (non-empty for properties) and none of the skin-patch keys before the patch is added |
| ItemProfile.NbtRoundTrip | api/src/main/java/com/github/retrooper/packetevents/protocol/component/builtin/item/ItemProfile.java:114-141 | `decode(encode(p))` gives back every profile whose UUID is a valid pair of longs |
| ItemProfile.NameOnlyForms | api/src/main/java/com/github/retrooper/packetevents/protocol/component/builtin/item/ItemProfile.java:115-118 | a bare string decodes as the profile holding only that name, as its compound form does |
| NbtCodecs.ApplyComposes | api/src/main/java/com/github/retrooper/packetevents/protocol/util/NbtCodec.java:32-44 | the applied codec decodes by running the inner decoder and then `forward` (an inner failure passes through), and encodes by `back` and then the inner encoder |
| NbtCodecs.ApplyRoundTrip | api/src/main/java/com/github/retrooper/packetevents/protocol/util/NbtCodec.java:32-44 | if the inner codec round-trips and `forward` inverts `back`, the applied codec round-trips |
| NbtCodecs.CommonKind | api/src/main/java/com/github/retrooper/packetevents/protocol/util/NbtCodecs.java:100 | the common kind of a non-empty list is COMPOUND or the kind every element has |
| NbtCodecs.GenericListRoundTrip | api/src/main/java/com/github/retrooper/packetevents/protocol/util/NbtCodecs.java:65-136 | decoding the generic list encoding of any list of tags gives the list back, whether it became a list, a wrapped compound list or a primitive array |
| NbtCodecs.GenericListEmpty | api/src/main/java/com/github/retrooper/packetevents/protocol/util/NbtCodecs.java:97-98 | the empty list encodes as an END list of size zero and decodes back as empty |
| NbtCodecs.GenericListDecodeShape | api/src/main/java/com/github/retrooper/packetevents/protocol/util/NbtCodecs.java:67-93 | `GENERIC_LIST.decode` succeeds exactly on lists and the three array kinds, and expands an array element by element into tags of the matching kind |
| NbtCodecs.ExpandValues | api/src/main/java/com/github/retrooper/packetevents/protocol/util/NbtCodecs.java:108-128 | packing tags of one primitive kind into an array and expanding it gives the tags back |
| NbtCodecs.ExpandArray | api/src/main/java/com/github/retrooper/packetevents/protocol/util/NbtCodecs.java:70-90 | the expansion loops turn each array element, in order, into a tag of its kind |
| NbtCodecs.DecodeGenericList | api/src/main/java/com/github/retrooper/packetevents/protocol/util/NbtCodecs.java:67-93 | the decoding branches and loops compute exactly `GenericListDecode` |
| NbtCodecs.FillArray | api/src/main/java/com/github/retrooper/packetevents/protocol/util/NbtCodecs.java:110-128 | the encoding loops fill the array with each tag's value, in order |
| NbtCodecs.EncodeGenericList | api/src/main/java/com/github/retrooper/packetevents/protocol/util/NbtCodecs.java:96-135 | the encoding branches and loops compute exactly `GenericListEncode` |
| NbtCodecs.DecodeAllInOrder | api/src/main/java/com/github/retrooper/packetevents/protocol/util/NbtCodec.java:49-56 | `applyList` decoding succeeds exactly when every element decodes, gives the elements' decodings in order, and otherwise fails with the first element's error |
| NbtCodecs.DecodeAllEncodeAll | api/src/main/java/com/github/retrooper/packetevents/protocol/util/NbtCodec.java:49-65 | decoding each encoded element gives back the list when the element codec round-trips |
| NbtCodecs.ApplyListRoundTrip | api/src/main/java/com/github/retrooper/packetevents/protocol/util/NbtCodec.java:46-67 | `applyList` of a round-tripping codec round-trips on every list of valid elements |
| NbtCodecs.StringRoundTrip | api/src/main/java/com/github/retrooper/packetevents/protocol/util/NbtCodecs.java:48-59 | `STRING` and `STRING_LIST` round-trip, and `STRING` refuses every tag that is not a string (the failed cast) |
| NbtCodecs.DecodeIntArray | api/src/main/java/com/github/retrooper/packetevents/protocol/util/NbtCodecs.java:140-154 | the `INT_ARRAY` decoder's branch and loop compute exactly `IntArrayDecode` |
| NbtCodecs.IntArrayOfNumbers | api/src/main/java/com/github/retrooper/packetevents/protocol/util/NbtCodecs.java:138-160 | an int array decodes to itself, and a list of numbers decodes to their int values in order |
| NbtCodecs.IntArrayRejectsNonNumbers | api/src/main/java/com/github/retrooper/packetevents/protocol/util/NbtCodecs.java:146-150 | a list holding a non-number fails with the not-numbers error |
| NbtCodecs.JoinHalves | api/src/main/java/com/github/retrooper/packetevents/protocol/util/NbtCodecs.java:162-163 | a long split into its two signed 32-bit halves joins back to itself |
| NbtCodecs.UuidRoundTrip | api/src/main/java/com/github/retrooper/packetevents/protocol/util/NbtCodecs.java:162-163 | the UUID codec round-trips on every UUID of two longs and refuses an int array whose length is not 4 |
| NbtCodecs.NameMapBuilds | api/src/main/java/com/github/retrooper/packetevents/protocol/util/NbtCodecs.java:172-179 | the name map builds exactly when the codec names are pairwise distinct |
| NbtCodecs.NameMapContents | api/src/main/java/com/github/retrooper/packetevents/protocol/util/NbtCodecs.java:172-179 | a built name map holds exactly the values' names, each mapped to its value |
| NbtCodecs.NameMapFailsOnward | api/src/main/java/com/github/retrooper/packetevents/protocol/util/NbtCodecs.java:172-179 | once a duplicate is met, the construction fails with that duplicate whatever follows |
| NbtCodecs.BuildNameMap | api/src/main/java/com/github/retrooper/packetevents/protocol/util/NbtCodecs.java:172-179 | the construction loop with `putIfAbsent` computes exactly `NameMap` |
| NbtCodecs.ForEnumSpec | api/src/main/java/com/github/retrooper/packetevents/protocol/util/NbtCodecs.java:168-196 | `forEnum` builds exactly when names are distinct; it then round-trips every value, refuses exactly the unknown names, and refuses a non-string tag |
| NbtCompounds.GetOrNull | api/src/main/java/com/github/retrooper/packetevents/protocol/component/builtin/item/ItemProfile.java:378-381 | `getOrNull` gives nothing exactly when the key is absent, and otherwise the codec's decoding of the tag (a decoding failure passes through) |
| NbtCompounds.GetOr | api/src/main/java/com/github/retrooper/packetevents/protocol/particle/data/ParticleSpellData.java:62 | `getOr` gives the fallback whenever the key is absent |
| NbtCompounds.GetStringOrNull | api/src/main/java/com/github/retrooper/packetevents/protocol/component/builtin/item/ItemProfile.java:229 | `getStringTagValueOrNull` gives a value exactly when the key holds a string tag |
| NbtCompounds.GetStringOrThrow | api/src/main/java/com/github/retrooper/packetevents/protocol/component/builtin/item/ItemProfile.java:227-228 | `getStringTagValueOrThrow` succeeds exactly when the key holds a string tag, with that string |
| NbtCompounds.SetIfPresent | api/src/main/java/com/github/retrooper/packetevents/protocol/component/builtin/item/ItemProfile.java:385-398 | a guarded `set` changes the key's entry to the encoded value when one is given and leaves it untouched otherwise; every other key is unchanged |
| NbtCompounds.GetAfterSet | api/src/main/java/com/github/retrooper/packetevents/protocol/component/builtin/item/ItemProfile.java:130-132 | after `set` with a round-tripping codec, `getOrNull` and `getOr` read the value back |
| SequentialNbtReader.RunCompleted | api/src/main/java/com/github/retrooper/packetevents/protocol/nbt/serializer/SequentialNBTReader.java:160-164 | running the completion callbacks only closes cursors from the top of the chain, keeps the position, budget and every list count, and moves no cursor |
| SequentialNbtReader.NewCompound | api/src/main/java/com/github/retrooper/packetevents/protocol/nbt/serializer/SequentialNBTReader.java:90-97 | opening a COMPOUND cursor hands out a fresh handle, pushes it on the chain and keeps every earlier cursor's kind and count |
| SequentialNbtReader.NewList | api/src/main/java/com/github/retrooper/packetevents/protocol/nbt/serializer/SequentialNBTReader.java:297-310 | opening a LIST cursor reads the element type and count, charges the limiter, hands out a fresh handle and keeps every earlier cursor |
| SequentialNbtReader.ReadChild | api/src/main/java/com/github/retrooper/packetevents/protocol/nbt/serializer/SequentialNBTReader.java:62-71 | reading a child succeeds exactly when the reader stays usable, never moves backwards and keeps the earlier cursors' kinds and counts |
| SequentialNbtReader.DeserializeTag | api/src/main/java/com/github/retrooper/packetevents/protocol/nbt/serializer/SequentialNBTReader.java:53-72 | `deserializeTag` succeeds exactly when the reader is left usable, within the input |
| SequentialNbtReader.CompoundHasNext | api/src/main/java/com/github/retrooper/packetevents/protocol/nbt/serializer/SequentialNBTReader.java:119-131 | `hasNext` of a COMPOUND throws while a nested cursor is still open; otherwise it reads the type byte at most once and answers whether it is not END, moving nothing but its own cursor |
| SequentialNbtReader.CompoundNext | api/src/main/java/com/github/retrooper/packetevents/protocol/nbt/serializer/SequentialNBTReader.java:134-158 | COMPOUND `next` throws while a nested cursor is still open |
| SequentialNbtReader.ListNext | api/src/main/java/com/github/retrooper/packetevents/protocol/nbt/serializer/SequentialNBTReader.java:338-359 | LIST `next` throws while a nested cursor is still open |
| SequentialNbtReader.SkipEntry | api/src/main/java/com/github/retrooper/packetevents/protocol/nbt/serializer/SequentialNBTReader.java:199-216 | skipping one compound entry consumes at least its name's length prefix and stays within the input |
| SequentialNbtReader.CompoundSkipOne | api/src/main/java/com/github/retrooper/packetevents/protocol/nbt/serializer/SequentialNBTReader.java:199-216 | COMPOUND `skipOne` throws while a nested cursor is still open |
| SequentialNbtReader.ListSkipOne | api/src/main/java/com/github/retrooper/packetevents/protocol/nbt/serializer/SequentialNBTReader.java:395-408 | LIST `skipOne` throws while a nested cursor is still open |
| SequentialNbtReader.SkipTop | api/src/main/java/com/github/retrooper/packetevents/protocol/nbt/serializer/SequentialNBTReader.java:173-196 | skipping the innermost open cursor to its end keeps the input bounds and every other list count |
| SequentialNbtReader.SkipCompoundRest | api/src/main/java/com/github/retrooper/packetevents/protocol/nbt/serializer/SequentialNBTReader.java:173-196 | skipping a COMPOUND's remaining entries moves forward and changes no other list count |
| SequentialNbtReader.SkipAbove | api/src/main/java/com/github/retrooper/packetevents/protocol/nbt/serializer/SequentialNBTReader.java:119-131 | closing the cursors nested in `c` (and `c` itself when inclusive) never moves backwards and keeps `c`'s own count when it is kept open |
| SequentialNbtReader.ReadRestEntries | api/src/main/java/com/github/retrooper/packetevents/protocol/nbt/serializer/SequentialNBTReader.java:218-243 | the `readFully` loop over the remaining entries consumes at least one byte and stays within the input |
| SequentialNbtReader.RunCompletedSettles | api/src/main/java/com/github/retrooper/packetevents/protocol/nbt/serializer/SequentialNBTReader.java:160-164 | running the callbacks after a cursor finished leaves the reader well-formed: the open handles increase, and each open cursor is the innermost or waits on a child |
| SequentialNbtReader.RunCompletedCloses | api/src/main/java/com/github/retrooper/packetevents/protocol/nbt/serializer/SequentialNBTReader.java:160-164 | running the callbacks after the innermost cursor finished closes at least that cursor |
| SequentialNbtReader.ReadChildWf | api/src/main/java/com/github/retrooper/packetevents/protocol/nbt/serializer/SequentialNBTReader.java:62-71 | reading a child from a parked reader leaves it well-formed |
| SequentialNbtReader.CompoundHasNextQuiet | api/src/main/java/com/github/retrooper/packetevents/protocol/nbt/serializer/SequentialNBTReader.java:119-131 | on a well-formed reader, an unblocked COMPOUND `hasNext` changes nothing and answers whether the cursor is still open |
| SequentialNbtReader.ListHasNextIsOpen | api/src/main/java/com/github/retrooper/packetevents/protocol/nbt/serializer/SequentialNBTReader.java:333-335 | on a well-formed reader, an unblocked LIST's `hasNext` answers whether the cursor is still open |
| SequentialNbtReader.CompoundHasNextIdempotent | api/src/main/java/com/github/retrooper/packetevents/protocol/nbt/serializer/SequentialNBTReader.java:119-131 | asking COMPOUND `hasNext` twice gives the same answer and state as asking once |
| SequentialNbtReader.CompoundNextWf | api/src/main/java/com/github/retrooper/packetevents/protocol/nbt/serializer/SequentialNBTReader.java:134-158 | COMPOUND `next` keeps the reader well-formed |
| SequentialNbtReader.ListNextWf | api/src/main/java/com/github/retrooper/packetevents/protocol/nbt/serializer/SequentialNBTReader.java:338-359 | LIST `next` keeps the reader well-formed |
| SequentialNbtReader.CompoundSkipOneWf | api/src/main/java/com/github/retrooper/packetevents/protocol/nbt/serializer/SequentialNBTReader.java:199-216 | COMPOUND `skipOne` keeps the reader well-formed |
| SequentialNbtReader.ListSkipOneWf | api/src/main/java/com/github/retrooper/packetevents/protocol/nbt/serializer/SequentialNBTReader.java:395-408 | LIST `skipOne` keeps the reader well-formed |
| SequentialNbtReader.SkipTopWf | api/src/main/java/com/github/retrooper/packetevents/protocol/nbt/serializer/SequentialNBTReader.java:173-196 | skipping the innermost cursor keeps the reader well-formed and closes at least one cursor |
| SequentialNbtReader.SkipAboveWf | api/src/main/java/com/github/retrooper/packetevents/protocol/nbt/serializer/SequentialNBTReader.java:173-196 | closing the cursors above `c` keeps the reader well-formed and leaves `c` closed (inclusive) or unblocked |
| SequentialNbtReader.SkipFinishes | api/src/main/java/com/github/retrooper/packetevents/protocol/nbt/serializer/SequentialNBTReader.java:173-196 | a successful `skip` leaves the reader well-formed with `c` closed and finished |
| SequentialNbtReader.CompoundReadFullyWf | api/src/main/java/com/github/retrooper/packetevents/protocol/nbt/serializer/SequentialNBTReader.java:218-243 | a successful COMPOUND `readFully` leaves the reader well-formed with `c` closed |
| SequentialNbtReader.ListReadFullyWf | api/src/main/java/com/github/retrooper/packetevents/protocol/nbt/serializer/SequentialNBTReader.java:410-430 | a successful LIST `readFully` leaves the reader well-formed with `c` closed |
| SequentialNbtReader.DeserializeTagWf | api/src/main/java/com/github/retrooper/packetevents/protocol/nbt/serializer/SequentialNBTReader.java:53-72 | the reader `deserializeTag` returns is well-formed |
| SequentialNbtReader.CompoundFinishedIsInert | api/src/main/java/com/github/retrooper/packetevents/protocol/nbt/serializer/SequentialNBTReader.java:119-243 | on a finished COMPOUND, `hasNext` is false, `next` throws "no more elements", and `skipOne`, `skip` and `readFully` (an empty compound) do nothing |
| SequentialNbtReader.ListFinishedIsInert | api/src/main/java/com/github/retrooper/packetevents/protocol/nbt/serializer/SequentialNBTReader.java:333-430 | on a finished LIST, `hasNext` is false, `next` throws "no more elements", and `skipOne`, `skip` and `readFully` (an empty list) do nothing |
| SequentialNbtReader.ListNextCounts | api/src/main/java/com/github/retrooper/packetevents/protocol/nbt/serializer/SequentialNBTReader.java:338-359 | a successful LIST `next` needs an element left and decrements `remaining` by one |
| SequentialNbtReader.ListSkipOneCounts | api/src/main/java/com/github/retrooper/packetevents/protocol/nbt/serializer/SequentialNBTReader.java:395-408 | LIST `skipOne` decrements `remaining` when one is left and otherwise changes nothing |
| SequentialNbtReader.ListReadFullyShape | api/src/main/java/com/github/retrooper/packetevents/protocol/nbt/serializer/SequentialNBTReader.java:410-430 | LIST `readFully` returns a list of the cursor's element type with exactly the remaining number of elements, each of that type |
| SequentialNbtReader.RestEntriesMatchEager | api/src/main/java/com/github/retrooper/packetevents/protocol/nbt/serializer/SequentialNBTReader.java:218-243 | without a limiter, COMPOUND `readFully` after the first type byte reads exactly what the eager compound reader reads |
| SequentialNbtReader.UnblockedIsInnermost | api/src/main/java/com/github/retrooper/packetevents/protocol/nbt/serializer/SequentialNBTReader.java:74-79 | on a well-formed reader an open cursor is unblocked exactly when no cursor nested in it is open |
| SequentialNbtReader.AsWrittenPassesOverOpenGrandchild | api/src/main/java/com/github/retrooper/packetevents/protocol/nbt/serializer/SequentialNBTReader.java:74-79 | a root whose list child has no element left but whose grandchild is still open passes `checkReadable` as written, while the corrected check refuses |
| TagSkips.SkipBytes | api/src/main/java/com/github/retrooper/packetevents/protocol/nbt/serializer/SequentialNBTReader.java:493 | `skipBytes(n)` moves on by `n`, or stops quietly at the end of the stream, and never moves for `n <= 0` |
| TagSkips.ReadInt | api/src/main/java/com/github/retrooper/packetevents/protocol/nbt/serializer/SequentialNBTReader.java:517 | `readInt` succeeds exactly when four bytes remain, giving a 32-bit int and charging nothing |
| TagSkips.ReadUnsignedShort | api/src/main/java/com/github/retrooper/packetevents/protocol/nbt/serializer/SequentialNBTReader.java:524 | `readUnsignedShort` succeeds exactly when two bytes remain, charging nothing |
| TagSkips.SkipScalar | api/src/main/java/com/github/retrooper/packetevents/protocol/nbt/serializer/SequentialNBTReader.java:491-514 | a number skipper succeeds exactly when its header-plus-width charge fits, and then skips the width (or to the end) |
| TagSkips.SkipArray | api/src/main/java/com/github/retrooper/packetevents/protocol/nbt/serializer/SequentialNBTReader.java:515-574 | an array skipper (with the exact byte count) reads the length and moves at least past it, within the stream; the budget only grows |
| TagSkips.SkipArrayAsWritten | api/src/main/java/com/github/retrooper/packetevents/protocol/nbt/serializer/SequentialNBTReader.java:515-574 | the array skipper with the source's 32-bit `length * BYTES`: reads the length and moves at least past it, within the stream; the budget only grows |
| TagSkips.AsWrittenArraySkipWraps | api/src/main/java/com/github/retrooper/packetevents/protocol/nbt/serializer/SequentialNBTReader.java:561-567 | an INT_ARRAY announcing 2^30 + 1 elements is charged, checked and skipped as 4 bytes as written under a fresh default limiter, while the corrected skipper and the eager reader refuse it |
| TagSkips.AsWrittenArraySkipAgrees | api/src/main/java/com/github/retrooper/packetevents/protocol/nbt/serializer/SequentialNBTReader.java:515-574 | whenever the byte count fits in 32 bits, the as-written skipper and the corrected one give the same result |
| TagSkips.ArraySkipExact | api/src/main/java/com/github/retrooper/packetevents/protocol/nbt/serializer/SequentialNBTReader.java:515-574 | under a buffer limiter a successful array skip has a non-negative length, passes over exactly length times the element width, all present in the stream, and charges exactly the header plus those bytes |
| TagSkips.SkipString | api/src/main/java/com/github/retrooper/packetevents/protocol/nbt/serializer/SequentialNBTReader.java:522-527 | the string skipper reads the length and moves at least past it, within the stream |
| TagSkips.Skip | api/src/main/java/com/github/retrooper/packetevents/protocol/nbt/serializer/SequentialNBTReader.java:491-574 | every skipper moves forward within the stream and only adds to the limiter's charge and depth accounting |
| TagSkips.SkipList | api/src/main/java/com/github/retrooper/packetevents/protocol/nbt/serializer/SequentialNBTReader.java:528-542 | the LIST skipper moves past at least its type byte and count, within the stream |
| TagSkips.SkipListBody | api/src/main/java/com/github/retrooper/packetevents/protocol/nbt/serializer/SequentialNBTReader.java:530-538 | the LIST skipper's charged body moves past at least its type byte and count |
| TagSkips.SkipItems | api/src/main/java/com/github/retrooper/packetevents/protocol/nbt/serializer/SequentialNBTReader.java:536-538 | the counted loop skips each element in turn, moving forward within the stream |
| TagSkips.SkipCompound | api/src/main/java/com/github/retrooper/packetevents/protocol/nbt/serializer/SequentialNBTReader.java:543-560 | the COMPOUND skipper consumes at least its END byte, within the stream |
| TagSkips.SkipCompoundBody | api/src/main/java/com/github/retrooper/packetevents/protocol/nbt/serializer/SequentialNBTReader.java:545-556 | the COMPOUND skipper's charged body consumes at least its END byte |
| TagSkips.SkipEntries | api/src/main/java/com/github/retrooper/packetevents/protocol/nbt/serializer/SequentialNBTReader.java:550-556 | the loop up to END consumes at least one byte, within the stream |
| TagSkips.NameCharge | api/src/main/java/com/github/retrooper/packetevents/protocol/nbt/serializer/SequentialNBTReader.java:552-554 | the entry overhead is charged only for a name not seen before in the compound |
| TagSkips.SkipMatchesRead | api/src/main/java/com/github/retrooper/packetevents/protocol/nbt/serializer/SequentialNBTReader.java:491-574 | whenever the eager reader reads a payload, its skipper (without a limiter) stops at exactly the same byte |
| TagSkips.ScalarSkipMatches | api/src/main/java/com/github/retrooper/packetevents/protocol/nbt/serializer/SequentialNBTReader.java:491-514 | a number skipper stops where the eager number reader stops |
| TagSkips.StringSkipMatches | api/src/main/java/com/github/retrooper/packetevents/protocol/nbt/serializer/SequentialNBTReader.java:522-527 | the string skipper stops where the eager string reader stops |
| TagSkips.ArraySkipMatches | api/src/main/java/com/github/retrooper/packetevents/protocol/nbt/serializer/SequentialNBTReader.java:515-521 | an array skipper stops where the eager array reader stops |
| TagSkips.ListSkipMatches | api/src/main/java/com/github/retrooper/packetevents/protocol/nbt/serializer/SequentialNBTReader.java:528-542 | the LIST skipper stops where the eager list reader stops |
| TagSkips.ItemsSkipMatch | api/src/main/java/com/github/retrooper/packetevents/protocol/nbt/serializer/SequentialNBTReader.java:536-538 | skipping `n` elements stops where reading `n` elements stops |
| TagSkips.CompoundSkipMatches | api/src/main/java/com/github/retrooper/packetevents/protocol/nbt/serializer/SequentialNBTReader.java:543-560 | the COMPOUND skipper stops where the eager compound reader stops |
| TagSkips.EntriesSkipMatch | api/src/main/java/com/github/retrooper/packetevents/protocol/nbt/serializer/SequentialNBTReader.java:549-556 | the skipping entry loop stops where the eager entry loop stops |
| SkipStream.ReadInt | api/src/main/java/com/github/retrooper/packetevents/protocol/nbt/serializer/SequentialNBTReader.java:517 | reading an int off the stream object moves it as `TagSkips.ReadInt` says |
| SkipStream.ReadUnsignedShort | api/src/main/java/com/github/retrooper/packetevents/protocol/nbt/serializer/SequentialNBTReader.java:524 | reading an unsigned short off the stream object moves it as `TagSkips.ReadUnsignedShort` says |
| SkipStream.SkipBytes | api/src/main/java/com/github/retrooper/packetevents/protocol/nbt/serializer/SequentialNBTReader.java:493 | `skipBytes` on the stream object moves it to `TagSkips.SkipBytes` |
| SkipStream.SkipScalar | api/src/main/java/com/github/retrooper/packetevents/protocol/nbt/serializer/SequentialNBTReader.java:491-514 | a number skipper leaves the stream and the limiter as `TagSkips.SkipScalar` computes |
| SkipStream.SkipArray | api/src/main/java/com/github/retrooper/packetevents/protocol/nbt/serializer/SequentialNBTReader.java:515-574 | an array skipper leaves the stream and the limiter as `TagSkips.SkipArray` computes (the exact byte count) |
| SkipStream.SkipString | api/src/main/java/com/github/retrooper/packetevents/protocol/nbt/serializer/SequentialNBTReader.java:522-527 | the string skipper leaves the stream and the limiter as `TagSkips.SkipString` computes |
| SkipStream.Skip | api/src/main/java/com/github/retrooper/packetevents/protocol/nbt/serializer/SequentialNBTReader.java:491-574 | the skip table's dispatch leaves the stream and the limiter as `TagSkips.Skip` computes, moving forward on success |
| SkipStream.SkipList | api/src/main/java/com/github/retrooper/packetevents/protocol/nbt/serializer/SequentialNBTReader.java:528-542 | the LIST skipper, with its depth `finally`, leaves the stream and limiter as `TagSkips.SkipList` computes |
| SkipStream.SkipListBody | api/src/main/java/com/github/retrooper/packetevents/protocol/nbt/serializer/SequentialNBTReader.java:530-538 | the LIST skipper's body leaves the stream and limiter as `TagSkips.SkipListBody` computes |
| SkipStream.SkipItems | api/src/main/java/com/github/retrooper/packetevents/protocol/nbt/serializer/SequentialNBTReader.java:536-538 | the counted loop leaves the stream and limiter as `TagSkips.SkipItems` computes |
| SkipStream.SkipCompound | api/src/main/java/com/github/retrooper/packetevents/protocol/nbt/serializer/SequentialNBTReader.java:543-560 | the COMPOUND skipper, with its depth `finally`, leaves the stream and limiter as `TagSkips.SkipCompound` computes |
| SkipStream.SkipCompoundBody | api/src/main/java/com/github/retrooper/packetevents/protocol/nbt/serializer/SequentialNBTReader.java:545-556 | the COMPOUND skipper's loop up to END leaves the stream and limiter as `TagSkips.SkipCompoundBody` computes |
| NbtCursors.SkipEntry | api/src/main/java/com/github/retrooper/packetevents/protocol/nbt/serializer/SequentialNBTReader.java:199-216 | skipping one compound entry in place leaves the stream and limiter as `SequentialNbtReader.SkipEntry` computes |
| NbtCursors.ReadRestEntries | api/src/main/java/com/github/retrooper/packetevents/protocol/nbt/serializer/SequentialNBTReader.java:222-239 | the COMPOUND `readFully` loop leaves the stream and limiter as `SequentialNbtReader.ReadRestEntries` computes, with the same entries |
| NbtCursors.SequentialReader.constructor | api/src/main/java/com/github/retrooper/packetevents/protocol/nbt/serializer/SequentialNBTReader.java:53-58 | a fresh reader over a stream at its start has no cursors |
| NbtCursors.SequentialReader.RunCompleted | api/src/main/java/com/github/retrooper/packetevents/protocol/nbt/serializer/SequentialNBTReader.java:160-164 | the completion chain, run in place, leaves the reader as `SequentialNbtReader.RunCompleted` computes |
| NbtCursors.SequentialReader.CompleteTop | api/src/main/java/com/github/retrooper/packetevents/protocol/nbt/serializer/SequentialNBTReader.java:160-164 | one step of the completion chain closes the innermost finished cursor and leaves the rest of the chain's result unchanged |
| NbtCursors.SequentialReader.NewCompound | api/src/main/java/com/github/retrooper/packetevents/protocol/nbt/serializer/SequentialNBTReader.java:90-97 | opening a COMPOUND cursor in place matches `SequentialNbtReader.NewCompound` |
| NbtCursors.SequentialReader.NewList | api/src/main/java/com/github/retrooper/packetevents/protocol/nbt/serializer/SequentialNBTReader.java:297-310 | opening a LIST cursor in place matches `SequentialNbtReader.NewList` |
| NbtCursors.SequentialReader.ReadChild | api/src/main/java/com/github/retrooper/packetevents/protocol/nbt/serializer/SequentialNBTReader.java:62-71 | reading a child in place matches `SequentialNbtReader.ReadChild` |
| NbtCursors.SequentialReader.DeserializeTag | api/src/main/java/com/github/retrooper/packetevents/protocol/nbt/serializer/SequentialNBTReader.java:53-72 | `deserializeTag` on a fresh reader matches `SequentialNbtReader.DeserializeTag` and keeps the reader well-formed |
| NbtCursors.SequentialReader.HasNext | api/src/main/java/com/github/retrooper/packetevents/protocol/nbt/serializer/SequentialNBTReader.java:119-131 | COMPOUND `hasNext` in place matches `SequentialNbtReader.CompoundHasNext` |
| NbtCursors.SequentialReader.CompoundHasNext | api/src/main/java/com/github/retrooper/packetevents/protocol/nbt/serializer/SequentialNBTReader.java:119-131 | on a reader broken by an earlier exception it fails; otherwise it matches `SequentialNbtReader.CompoundHasNext` and keeps the reader well-formed |
| NbtCursors.SequentialReader.CompoundNext | api/src/main/java/com/github/retrooper/packetevents/protocol/nbt/serializer/SequentialNBTReader.java:134-158 | COMPOUND `next` in place matches `SequentialNbtReader.CompoundNext` and keeps the reader well-formed |
| NbtCursors.SequentialReader.CompoundNextReady | api/src/main/java/com/github/retrooper/packetevents/protocol/nbt/serializer/SequentialNBTReader.java:134-158 | COMPOUND `next` on a usable reader matches `SequentialNbtReader.CompoundNext` |
| NbtCursors.SequentialReader.ListNext | api/src/main/java/com/github/retrooper/packetevents/protocol/nbt/serializer/SequentialNBTReader.java:338-359 | LIST `next` in place matches `SequentialNbtReader.ListNext` and keeps the reader well-formed |
| NbtCursors.SequentialReader.ListNextReady | api/src/main/java/com/github/retrooper/packetevents/protocol/nbt/serializer/SequentialNBTReader.java:338-359 | LIST `next` on a usable reader matches `SequentialNbtReader.ListNext` |
| NbtCursors.SequentialReader.CompoundSkipOne | api/src/main/java/com/github/retrooper/packetevents/protocol/nbt/serializer/SequentialNBTReader.java:199-216 | COMPOUND `skipOne` in place matches `SequentialNbtReader.CompoundSkipOne` and keeps the reader well-formed |
| NbtCursors.SequentialReader.CompoundSkipOneReady | api/src/main/java/com/github/retrooper/packetevents/protocol/nbt/serializer/SequentialNBTReader.java:199-216 | COMPOUND `skipOne` on a usable reader matches `SequentialNbtReader.CompoundSkipOne` |
| NbtCursors.SequentialReader.ListSkipOne | api/src/main/java/com/github/retrooper/packetevents/protocol/nbt/serializer/SequentialNBTReader.java:395-408 | LIST `skipOne` in place matches `SequentialNbtReader.ListSkipOne` and keeps the reader well-formed |
| NbtCursors.SequentialReader.ListSkipOneReady | api/src/main/java/com/github/retrooper/packetevents/protocol/nbt/serializer/SequentialNBTReader.java:395-408 | LIST `skipOne` on a usable reader matches `SequentialNbtReader.ListSkipOne` |
| NbtCursors.SequentialReader.SkipTop | api/src/main/java/com/github/retrooper/packetevents/protocol/nbt/serializer/SequentialNBTReader.java:173-196 | skipping the innermost cursor in place matches `SequentialNbtReader.SkipTop` |
| NbtCursors.SequentialReader.SkipCompoundRest | api/src/main/java/com/github/retrooper/packetevents/protocol/nbt/serializer/SequentialNBTReader.java:177-190 | skipping a COMPOUND's remaining entries in place matches `SequentialNbtReader.SkipCompoundRest` |
| NbtCursors.SequentialReader.SkipAbove | api/src/main/java/com/github/retrooper/packetevents/protocol/nbt/serializer/SequentialNBTReader.java:173-196 | closing the cursors nested in `c` in place matches `SequentialNbtReader.SkipAbove` |
| NbtCursors.SequentialReader.Skip | api/src/main/java/com/github/retrooper/packetevents/protocol/nbt/serializer/SequentialNBTReader.java:173-196 | `skip` in place matches `SequentialNbtReader.Skip` and keeps the reader well-formed |
| NbtCursors.SequentialReader.CompoundReadFully | api/src/main/java/com/github/retrooper/packetevents/protocol/nbt/serializer/SequentialNBTReader.java:218-243 | COMPOUND `readFully` in place matches `SequentialNbtReader.CompoundReadFully` and keeps the reader well-formed |
| NbtCursors.SequentialReader.CompoundReadFullyReady | api/src/main/java/com/github/retrooper/packetevents/protocol/nbt/serializer/SequentialNBTReader.java:218-243 | COMPOUND `readFully` on a usable reader matches `SequentialNbtReader.CompoundReadFully` |
| NbtCursors.SequentialReader.ListReadFully | api/src/main/java/com/github/retrooper/packetevents/protocol/nbt/serializer/SequentialNBTReader.java:410-430 | LIST `readFully` in place matches `SequentialNbtReader.ListReadFully` and keeps the reader well-formed |
| NbtCursors.SequentialReader.ListReadFullyReady | api/src/main/java/com/github/retrooper/packetevents/protocol/nbt/serializer/SequentialNBTReader.java:410-430 | LIST `readFully` on a usable reader matches `SequentialNbtReader.ListReadFully` |
| NbtCursors.IntToBytes | api/src/main/java/com/github/retrooper/packetevents/protocol/nbt/serializer/SequentialNBTReader.java:706-711 | `intToBytes` writes the int's four big-endian bytes at the offset and nothing else |
| DefaultNbtSerializer.Charge | api/src/main/java/com/github/retrooper/packetevents/protocol/nbt/NBTLimiter.java:69-76 | a reader's charge succeeds exactly when `increment` does, leaves the limiter's later state, and wraps its error |
| DefaultNbtSerializer.ReadUtf | api/src/main/java/com/github/retrooper/packetevents/protocol/nbt/serializer/DefaultNBTSerializer.java:241 | `readUTF` consumes at least its two-byte length and stays within the input, charging nothing |
| DefaultNbtSerializer.ReadString | api/src/main/java/com/github/retrooper/packetevents/protocol/nbt/serializer/DefaultNBTSerializer.java:240-245 | `readString` consumes at least the two-byte length, within the input, and only adds to the charge |
| DefaultNbtSerializer.ReadFixed | api/src/main/java/com/github/retrooper/packetevents/protocol/nbt/serializer/DefaultNBTSerializer.java:75-98 | a fixed-width read succeeds exactly when its charge fits and `width` bytes remain, and returns exactly those bytes |
| DefaultNbtSerializer.ReadElems | api/src/main/java/com/github/retrooper/packetevents/protocol/nbt/serializer/DefaultNBTSerializer.java:140-142 | the list reader's loop moves forward within the input and only adds to the charge |
| DefaultNbtSerializer.ExampleEntries | api/src/main/java/com/github/retrooper/packetevents/protocol/nbt/serializer/DefaultNBTSerializer.java:165-172 | a compound holding the entry `a` twice is read as one entry holding the last value, and the entry overhead is charged once |
| NbtStream.NbtInput.constructor | api/src/main/java/com/github/retrooper/packetevents/protocol/nbt/serializer/DefaultNBTSerializer.java:61 | a stream over the input starts at its first byte with the given limiter |
| NbtStream.NbtInput.Charge | api/src/main/java/com/github/retrooper/packetevents/protocol/nbt/NBTLimiter.java:69-76 | `increment` on the limiter object changes it exactly as `DefaultNbtSerializer.Charge` computes and leaves it unchanged on failure |
| NbtStream.NbtOutput.constructor | api/src/main/java/com/github/retrooper/packetevents/protocol/nbt/serializer/DefaultNBTSerializer.java:62 | an output stream starts empty |
| NbtEncoding.ArrayBodyRoundTrip | api/src/main/java/com/github/retrooper/packetevents/protocol/nbt/serializer/DefaultNBTSerializer.java:188-237 | an array reader reads back the length and elements the array writer wrote |
| NbtEncoding.CompoundEntriesRoundTrip | api/src/main/java/com/github/retrooper/packetevents/protocol/nbt/serializer/DefaultNBTSerializer.java:165-186 | the compound reader's loop, started on an empty map, reads back every entry the compound writer wrote, in order |
| NbtEncoding.EntryRoundTrip | api/src/main/java/com/github/retrooper/packetevents/protocol/nbt/serializer/DefaultNBTSerializer.java:165-186 | one turn of the compound reader's loop reads back the first entry the writer's loop wrote |
| ModifiedUtf8.UnitRoundTrip | api/src/main/java/com/github/retrooper/packetevents/protocol/nbt/serializer/DefaultNBTSerializer.java:68 | the bytes `writeUTF` gives one UTF-16 code unit (one, two or three) decode back to that unit |

## Left out

- `NBTCompound`, `NBTList`, `NBTNumber` and the `NBTSerializer` base class are not part of this model. Their behaviour is stated as the calling code uses it: setTag replaces or appends, the kind-id lookup is a partial map from byte to kind, and numbers convert with Java's casts.
- `UniqueIdUtil` is not part of this model. The UUID codec assumes its int-array layout: the high and low halves of the most significant long, then those of the least significant long.
- `ResourceLocation`, `Color`, `Sound`, `Particle`, `WeightedList` and the registries are not part of this model. A resource location is its string form, a colour its packed RGB int, and a registry entry its key.
- The byte encodings of the packet primitives (VarInt, floats, strings, the block-position bit packing) are left out. The buffer is a queue of typed tokens, so every read/write pair is inverse by construction.
- Floating point is left out. Floats and doubles are kept as their IEEE 754 bits.
  - Explosion: the widening and narrowing casts between float and double are a `Casts` parameter.
  - LpVector3d: the double arithmetic of `sanitize`, `pack` and `unpack` is not modelled, and a vector is taken after quantisation.
- NbtLimiter: `checkReadability` takes the buffer's readable bytes as a parameter, because `ByteBufHelper` is not part of this model. The system properties that set the default ceilings are constants.
- State left behind by an exception is not modelled in full.
  - A spec reader's failure gives the limiter's state but no stream position.
  - After an error, the streaming reader is `Broken` and refuses every further operation. The source instead leaves its cursors part-way.
  - A wrapper `Write` that would throw a null pointer exception writes nothing. The source may have written a prefix first.
- The cursors' `close`, `iterator`, `copy`, `equals` and `hashCode` are left out, and so are `Compound.readFullyAsBytes`, `List.readFullyAsBinary` and the `TAG_BINARY_READERS` they use. These produce a second encoding of the same bytes and do not change the reader's state beyond what `skip` does. Only `intToBytes` is modelled.
- The event-based constructors (`FromEvent`) take the protocol version and the buffer in place of the event. The source leaves the fields `null` until `read` runs; the model gives them default values instead, except Explosion's block particles, which stay `None` as the source's `null` does.
- Setters, getters and the Adventure/Bukkit conversion helpers of the wrappers and components are left out. Explosion's `Vector3f` and registry-default constructors are also left out, because they only convert types and forward to the canonical constructor.
- ParticleSpellData, ParticlePowerData: `isEmpty` always returns false and is left out.
- ItemLock, TypedData: `equals` and `hashCode` are Dafny's structural equality on the datatype.
- Explosion.Wrapper.Copy: the source of `copy` lacks the semicolon after its last assignment. The model copies every field, which the method evidently means to do.
- Explosion.BlockCount: the null pointer exception of `getBlockCount` on a packet without records is `None`.
- SequentialNbtReader.SkipAbove: it stops early when a level leaves the chain unchanged. The source has no such stop, and on a well-formed reader the stop is never reached (`SkipAboveWf`).
- TagSkips.SkipArray: the byte count it charges, checks and skips is the exact product of the length and the element width. The source computes it in 32 bits; that version is `TagSkips.SkipArrayAsWritten`, and the wrap is listed under "## Findings".
- SkipStream.SkipArray: the same exact byte count as `TagSkips.SkipArray`.
- TagSkips.SkipList: the element reference charge is the exact `4 * length`, like the eager reader's corrected charge. The source's 32-bit product is the `DefaultNBTSerializer.java:138` row under "## Findings".
- TagSkips: the skippers charge the limiter by the source's own constants. These differ from the eager readers for SHORT (`Short.BYTES` against `Short.SIZE`), so the match lemmas compare positions under the no-op limiter only.

## Findings

| source | as written | input that shows it | evidently intended | confidence | as-written member | corrected member |
|---|---|---|---|---|---|---|
| api/src/main/java/com/github/retrooper/packetevents/protocol/nbt/NBTLimiter.java:72 | `this.bytes + amount > maxBytes` is computed in 32-bit `int` arithmetic, so a large charge wraps to a negative sum and passes | bytes = 36, amount = 2^31 - 4 (the charge of a list of 2^29 - 1 elements): the sum wraps to -2^31 + 32, the charge is accepted and the counter goes negative | refuse any charge that takes the total past `maxBytes` | not executed; high | NbtLimiter.AsWrittenAcceptsOverflowingCharge | NbtLimiter.IncrementSpec |
| api/src/main/java/com/github/retrooper/packetevents/protocol/nbt/serializer/DefaultNBTSerializer.java:138 | the list reference charge `OBJECT_REF_BYTES * size` is a 32-bit product; the streaming list cursor does the same at api/src/main/java/com/github/retrooper/packetevents/protocol/nbt/serializer/SequentialNBTReader.java:305, and so does the LIST skipper at api/src/main/java/com/github/retrooper/packetevents/protocol/nbt/serializer/SequentialNBTReader.java:535 | size = 2^30 + 1: the product wraps to 4, which a fresh default limiter accepts, while the intended charge of 2^32 + 4 bytes is refused | charge four bytes per announced element, so that an accepted list has at most a quarter of the ceiling in elements | not executed; high | DefaultNbtSerializer.ListChargeWraps | DefaultNbtSerializer.ListSizeWithinBudget |
| api/src/main/java/com/github/retrooper/packetevents/protocol/nbt/serializer/SequentialNBTReader.java:561-574 | the INT_ARRAY and LONG_ARRAY skippers charge, check and skip `length * Integer.BYTES` and `length * Long.BYTES` as 32-bit products, with none of the eager reader's 2^24 guard | an INT_ARRAY announcing 2^30 + 1 elements under a fresh default limiter: the product wraps to 4, so 4 bytes are charged, checked and skipped, and the next read starts inside the array's data | skip exactly the announced elements' bytes, or refuse the array as the eager reader does | not executed; high | TagSkips.AsWrittenArraySkipWraps | TagSkips.ArraySkipExact |
| api/src/main/java/com/github/retrooper/packetevents/protocol/nbt/serializer/SequentialNBTReader.java:74-79 | `checkReadable` asks the last cursor handed out whether it `hasNext`; a LIST cursor answers by its own count only, ignoring an element it handed out that is still open | a COMPOUND root whose current entry is a LIST of one COMPOUND, with that element handed out and still open: the root may advance and reads its next type byte from inside the inner compound | refuse while any cursor nested in the one asked is unfinished | not executed; medium | SequentialNbtReader.AsWrittenPassesOverOpenGrandchild | SequentialNbtReader.UnblockedIsInnermost |
| api/src/main/java/com/github/retrooper/packetevents/wrapper/play/server/WrapperPlayServerExplosion.java:116-148 | neither constructor sets `blockParticles`, which `write` hands to `WeightedList.write` from 1.21.9 | a packet built with either constructor and written with a 1.21.9 server version: `write` throws a null pointer exception after the sound | default the block particles to an empty list, so that a constructed packet can be written at every version | not executed; high | Explosion.ConstructedUnwritable | Explosion.DefaultedRoundTrip |
| api/src/main/java/com/github/retrooper/packetevents/wrapper/play/server/WrapperPlayServerPlayerRotation.java:83-86 | `copy` takes yaw and pitch but not the two relative flags added for 1.21.9 | a relative source copied into an absolute target: from 1.21.9 the copy sends different flags | copy every field, as the other wrappers' `copy` do | not executed; medium | PlayerRotation.CopyAsWrittenLosesFlags | PlayerRotation.Wrapper.Copy |
