/**
 * `ItemProfile`, the player profile of a head item: its packet codec, which
 * from 1.21.9 on flags a complete profile and adds a skin patch, and its
 * NBT codec, with the nested `Property` and `SkinPatch` codecs and the two
 * accepted forms of the property list. A `ResourceLocation` is kept as its
 * string form.
 */
module ItemProfile {
  import opened Wrappers
  import opened JavaInts
  import opened ModifiedUtf8
  import opened NbtTypes
  import opened NbtCompounds
  import C = NbtCodecs
  import P = PacketStream
  import M = PlayerModelType

  datatype Property = Property(name: JString, value: JString, signature: Option<JString>)

  datatype SkinPatch = SkinPatch(body: Option<JString>, cape: Option<JString>, elytra: Option<JString>, model: Option<M.PlayerModelType>)

  /** `SkinPatch.EMPTY`. */
  const EMPTY_PATCH: SkinPatch := SkinPatch(None, None, None, None)

  datatype ItemProfile = ItemProfile(name: Option<JString>, id: Option<C.Uuid>, properties: seq<Property>, skinPatch: SkinPatch)

  // ---- Packet codec ----

  /** The length limits `readString` is given: 16 for a profile name, 64, 32767 and 1024 for a property's name, value and signature. */
  const MAX_NAME: int := 16
  const MAX_PROPERTY_NAME: int := 64
  const MAX_PROPERTY_VALUE: int := 32767
  const MAX_SIGNATURE: int := 1024

  function ReadName(s: seq<P.Token>): Result<P.Read<JString>, P.StreamError> { P.ReadString(s, MAX_NAME) }
  function ReadSignature(s: seq<P.Token>): Result<P.Read<JString>, P.StreamError> { P.ReadString(s, MAX_SIGNATURE) }
  function WriteString(x: JString): seq<P.Token> { [P.Str(x)] }

  function ReadId(s: seq<P.Token>): Result<P.Read<C.Uuid>, P.StreamError>
  {
    var u :- P.ReadUuid(s);
    Ok(P.Read(C.Uuid(u.value.0, u.value.1), u.rest))
  }

  function WriteId(u: C.Uuid): seq<P.Token> { [P.Uuid(u.msb, u.lsb)] }

  /** `ResourceLocation.read` / `write`. */
  function ReadLocation(s: seq<P.Token>): Result<P.Read<JString>, P.StreamError> { P.ReadIdent(s) }
  function WriteLocation(x: JString): seq<P.Token> { [P.Ident(x)] }

  /** `Property.read`: name, value, optional signature. */
  function ReadProperty(s: seq<P.Token>): Result<P.Read<Property>, P.StreamError>
  {
    var name :- P.ReadString(s, MAX_PROPERTY_NAME);
    var value :- P.ReadString(name.rest, MAX_PROPERTY_VALUE);
    var signature :- P.ReadOptional(value.rest, ReadSignature);
    Ok(P.Read(Property(name.value, value.value, signature.value), signature.rest))
  }

  /** `Property.write`. */
  function WriteProperty(p: Property): seq<P.Token>
  {
    [P.Str(p.name), P.Str(p.value)] + P.WriteOptional(p.signature, WriteString)
  }

  /** A property whose strings are within the limits its reader enforces. */
  predicate PropertyFits(p: Property)
  {
    |p.name| <= MAX_PROPERTY_NAME && |p.value| <= MAX_PROPERTY_VALUE
    && (p.signature.Some? ==> |p.signature.value| <= MAX_SIGNATURE)
  }

  /** `SkinPatch.read`: four optional fields. */
  function ReadSkinPatch(s: seq<P.Token>): Result<P.Read<SkinPatch>, P.StreamError>
  {
    var body :- P.ReadOptional(s, ReadLocation);
    var cape :- P.ReadOptional(body.rest, ReadLocation);
    var elytra :- P.ReadOptional(cape.rest, ReadLocation);
    var model :- P.ReadOptional(elytra.rest, M.Read);
    Ok(P.Read(SkinPatch(body.value, cape.value, elytra.value, model.value), model.rest))
  }

  /** `SkinPatch.write`. */
  function WriteSkinPatch(p: SkinPatch): seq<P.Token>
  {
    P.WriteOptional(p.body, WriteLocation)
    + (P.WriteOptional(p.cape, WriteLocation)
    + (P.WriteOptional(p.elytra, WriteLocation)
    + P.WriteOptional(p.model, M.Write)))
  }

  /** The name and id as a complete profile sends them: id, then name. */
  function ReadComplete(s: seq<P.Token>): Result<P.Read<(Option<JString>, Option<C.Uuid>)>, P.StreamError>
  {
    var id :- ReadId(s);
    var name :- ReadName(id.rest);
    Ok(P.Read((Some(name.value), Some(id.value)), name.rest))
  }

  /** The name and id as a partial profile sends them: both optional, name first. */
  function ReadPartial(s: seq<P.Token>): Result<P.Read<(Option<JString>, Option<C.Uuid>)>, P.StreamError>
  {
    var name :- P.ReadOptional(s, ReadName);
    var id :- P.ReadOptional(name.rest, ReadId);
    Ok(P.Read((name.value, id.value), id.rest))
  }

  /**
   * `read`: from 1.21.9 a flag says whether the profile is complete (an id
   * and a name) or partial (each optional); earlier versions always send
   * the partial form. Then the properties, then from 1.21.9 the skin patch,
   * which earlier versions leave at `EMPTY`.
   */
  function Read(version: int, s: seq<P.Token>): Result<P.Read<ItemProfile>, P.StreamError>
  {
    var complete :- ReadFlag(version, s);
    var head :- ReadHead(complete.value, complete.rest);
    var properties :- P.ReadList(head.rest, ReadProperty);
    var patch :- ReadPatch(version, properties.rest);
    Ok(P.Read(ItemProfile(head.value.0, head.value.1, properties.value, patch.value), patch.rest))
  }

  /** The completeness flag, always false before 1.21.9. */
  function ReadFlag(version: int, s: seq<P.Token>): Result<P.Read<bool>, P.StreamError>
  {
    if version < P.V_1_21_9 then Ok(P.Read(false, s)) else P.ReadBool(s)
  }

  function ReadHead(complete: bool, s: seq<P.Token>): Result<P.Read<(Option<JString>, Option<C.Uuid>)>, P.StreamError>
  {
    if complete then ReadComplete(s) else ReadPartial(s)
  }

  /** The skin patch from 1.21.9, `EMPTY` before. */
  function ReadPatch(version: int, s: seq<P.Token>): Result<P.Read<SkinPatch>, P.StreamError>
  {
    if version >= P.V_1_21_9 then ReadSkinPatch(s) else Ok(P.Read(EMPTY_PATCH, s))
  }

  /** Whether `write` sends the complete form. */
  predicate Complete(version: int, p: ItemProfile)
  {
    version >= P.V_1_21_9 && p.name.Some? && p.id.Some?
  }

  /** `write`. */
  function Write(version: int, p: ItemProfile): seq<P.Token>
  {
    WriteFlag(version, p) + (WriteHead(version, p) + (P.WriteList(p.properties, WriteProperty) + WritePatch(version, p)))
  }

  function WriteFlag(version: int, p: ItemProfile): seq<P.Token>
  {
    if version >= P.V_1_21_9 then [P.Bool(Complete(version, p))] else []
  }

  function WriteHead(version: int, p: ItemProfile): seq<P.Token>
  {
    if Complete(version, p) then WriteId(p.id.value) + WriteString(p.name.value)
    else P.WriteOptional(p.name, WriteString) + P.WriteOptional(p.id, WriteId)
  }

  function WritePatch(version: int, p: ItemProfile): seq<P.Token>
  {
    if version >= P.V_1_21_9 then WriteSkinPatch(p.skinPatch) else []
  }

  /** A profile whose strings are within the reader's limits. */
  predicate Fits(p: ItemProfile)
  {
    (p.name.Some? ==> |p.name.value| <= MAX_NAME)
    && |p.properties| < TWO_31
    && forall i :: 0 <= i < |p.properties| ==> PropertyFits(p.properties[i])
  }

  lemma NameInverse()
    ensures P.Inverse(ReadName, WriteString, x => |x| <= MAX_NAME)
  {
    forall x: JString, rest | |x| <= MAX_NAME ensures ReadName(WriteString(x) + rest) == Ok(P.Read(x, rest)) {
      P.StringRoundTrip(x, MAX_NAME, rest);
    }
  }

  lemma SignatureInverse()
    ensures P.Inverse(ReadSignature, WriteString, x => |x| <= MAX_SIGNATURE)
  {
    forall x: JString, rest | |x| <= MAX_SIGNATURE ensures ReadSignature(WriteString(x) + rest) == Ok(P.Read(x, rest)) {
      P.StringRoundTrip(x, MAX_SIGNATURE, rest);
    }
  }

  lemma IdInverse()
    ensures P.Inverse(ReadId, WriteId, u => true)
  {
    forall u: C.Uuid, rest ensures ReadId(WriteId(u) + rest) == Ok(P.Read(u, rest)) {
      assert (WriteId(u) + rest)[1..] == rest;
    }
  }

  lemma LocationInverse()
    ensures P.Inverse(ReadLocation, WriteLocation, x => true)
  {
    forall x: JString, rest ensures ReadLocation(WriteLocation(x) + rest) == Ok(P.Read(x, rest)) {
      assert (WriteLocation(x) + rest)[1..] == rest;
    }
  }

  lemma ModelInverse()
    ensures P.Inverse(M.Read, M.Write, t => true)
  {
    forall t: M.PlayerModelType, rest ensures M.Read(M.Write(t) + rest) == Ok(P.Read(t, rest)) {
      M.ReadWrite(t, rest);
    }
  }

  /** `Property.read` takes back what `Property.write` wrote, for every property within the limits. */
  lemma PropertyRoundTrip(p: Property, rest: seq<P.Token>)
    requires PropertyFits(p)
    ensures ReadProperty(WriteProperty(p) + rest) == Ok(P.Read(p, rest))
  {
    var tail := P.WriteOptional(p.signature, WriteString) + rest;
    assert WriteProperty(p) + rest == [P.Str(p.name)] + ([P.Str(p.value)] + tail);
    P.StringRoundTrip(p.name, MAX_PROPERTY_NAME, [P.Str(p.value)] + tail);
    P.StringRoundTrip(p.value, MAX_PROPERTY_VALUE, tail);
    SignatureInverse();
    P.OptionalRoundTrip(ReadSignature, WriteString, x => |x| <= MAX_SIGNATURE, p.signature, rest);
  }

  lemma PropertyInverse()
    ensures P.Inverse(ReadProperty, WriteProperty, PropertyFits)
  {
    forall p, rest | PropertyFits(p) ensures ReadProperty(WriteProperty(p) + rest) == Ok(P.Read(p, rest)) {
      PropertyRoundTrip(p, rest);
    }
  }

  lemma OptionalLocation(x: Option<JString>, rest: seq<P.Token>)
    ensures P.ReadOptional(P.WriteOptional(x, WriteLocation) + rest, ReadLocation) == Ok(P.Read(x, rest))
  {
    LocationInverse();
    P.OptionalRoundTrip(ReadLocation, WriteLocation, x => true, x, rest);
  }

  lemma OptionalModel(x: Option<M.PlayerModelType>, rest: seq<P.Token>)
    ensures P.ReadOptional(P.WriteOptional(x, M.Write) + rest, M.Read) == Ok(P.Read(x, rest))
  {
    ModelInverse();
    P.OptionalRoundTrip(M.Read, M.Write, t => true, x, rest);
  }

  /** `SkinPatch.read` takes back what `SkinPatch.write` wrote. */
  lemma SkinPatchRoundTrip(p: SkinPatch, rest: seq<P.Token>)
    ensures ReadSkinPatch(WriteSkinPatch(p) + rest) == Ok(P.Read(p, rest))
  {
    var t3 := P.WriteOptional(p.model, M.Write) + rest;
    var t2 := P.WriteOptional(p.elytra, WriteLocation) + t3;
    var t1 := P.WriteOptional(p.cape, WriteLocation) + t2;
    var s := P.WriteOptional(p.body, WriteLocation) + t1;
    assert WriteSkinPatch(p) + rest == s;
    OptionalLocation(p.body, t1);
    OptionalLocation(p.cape, t2);
    OptionalLocation(p.elytra, t3);
    OptionalModel(p.model, rest);
    assert P.ReadOptional(s, ReadLocation) == Ok(P.Read(p.body, t1));
    assert P.ReadOptional(t1, ReadLocation) == Ok(P.Read(p.cape, t2));
    assert P.ReadOptional(t2, ReadLocation) == Ok(P.Read(p.elytra, t3));
    assert P.ReadOptional(t3, M.Read) == Ok(P.Read(p.model, rest));
  }

  lemma FlagRoundTrip(version: int, p: ItemProfile, rest: seq<P.Token>)
    ensures ReadFlag(version, WriteFlag(version, p) + rest) == Ok(P.Read(Complete(version, p), rest))
  {
    if version >= P.V_1_21_9 {
      assert (WriteFlag(version, p) + rest)[1..] == rest;
    } else {
      assert WriteFlag(version, p) + rest == rest;
    }
  }

  /** The name and id come back in either form. */
  lemma HeadRoundTrip(version: int, p: ItemProfile, rest: seq<P.Token>)
    requires p.name.Some? ==> |p.name.value| <= MAX_NAME
    ensures ReadHead(Complete(version, p), WriteHead(version, p) + rest) == Ok(P.Read((p.name, p.id), rest))
  {
    if Complete(version, p) {
      var s := WriteId(p.id.value) + WriteString(p.name.value) + rest;
      assert WriteHead(version, p) + rest == s;
      assert s[1..] == WriteString(p.name.value) + rest;
      P.StringRoundTrip(p.name.value, MAX_NAME, rest);
    } else {
      var tail := P.WriteOptional(p.id, WriteId) + rest;
      assert WriteHead(version, p) + rest == P.WriteOptional(p.name, WriteString) + tail;
      NameInverse();
      IdInverse();
      P.OptionalRoundTrip(ReadName, WriteString, x => |x| <= MAX_NAME, p.name, tail);
      P.OptionalRoundTrip(ReadId, WriteId, u => true, p.id, rest);
    }
  }

  lemma PatchRoundTrip(version: int, p: ItemProfile, rest: seq<P.Token>)
    ensures ReadPatch(version, WritePatch(version, p) + rest)
      == Ok(P.Read(if version >= P.V_1_21_9 then p.skinPatch else EMPTY_PATCH, rest))
  {
    if version >= P.V_1_21_9 {
      SkinPatchRoundTrip(p.skinPatch, rest);
    } else {
      assert WritePatch(version, p) + rest == rest;
    }
  }

  lemma PropertiesRoundTrip(ps: seq<Property>, rest: seq<P.Token>)
    requires |ps| < TWO_31 && forall i :: 0 <= i < |ps| ==> PropertyFits(ps[i])
    ensures P.ReadList(P.WriteList(ps, WriteProperty) + rest, ReadProperty) == Ok(P.Read(ps, rest))
  {
    PropertyInverse();
    P.ListRoundTrip(ReadProperty, WriteProperty, PropertyFits, ps, rest);
  }

  /**
   * `read` takes back what `write` wrote with the same version, for every
   * profile within the length limits; before 1.21.9 the skin patch is not
   * sent and comes back as `EMPTY`.
   */
  lemma RoundTrip(version: int, p: ItemProfile, rest: seq<P.Token>)
    requires Fits(p)
    ensures Read(version, Write(version, p) + rest)
      == Ok(P.Read(if version >= P.V_1_21_9 then p else p.(skinPatch := EMPTY_PATCH), rest))
  {
    var t2 := WritePatch(version, p) + rest;
    var t1 := P.WriteList(p.properties, WriteProperty) + t2;
    var t0 := WriteHead(version, p) + t1;
    P.Reassociate(WriteFlag(version, p), WriteHead(version, p), P.WriteList(p.properties, WriteProperty), WritePatch(version, p), rest);
    FlagRoundTrip(version, p, t0);
    HeadRoundTrip(version, p, t1);
    PropertiesRoundTrip(p.properties, t2);
    PatchRoundTrip(version, p, rest);
    var patch := if version >= P.V_1_21_9 then p.skinPatch else EMPTY_PATCH;
    assert Read(version, WriteFlag(version, p) + t0) == Ok(P.Read(ItemProfile(p.name, p.id, p.properties, patch), rest));
  }

  /** Which form goes on the wire: from 1.21.9 a leading flag that is set iff both the name and the id are present. */
  lemma CompleteFlag(version: int, p: ItemProfile)
    ensures version >= P.V_1_21_9 ==> Write(version, p)[0] == P.Bool(p.name.Some? && p.id.Some?)
    ensures version < P.V_1_21_9 ==> Write(version, p)[0] == P.Bool(p.name.Some?)
  {
  }

  // ---- NBT codec ----

  const NAME: JString := Literal("name")
  const VALUE: JString := Literal("value")
  const SIGNATURE: JString := Literal("signature")
  const ID: JString := Literal("id")
  const PROPERTIES: JString := Literal("properties")
  const TEXTURE: JString := Literal("texture")
  const CAPE: JString := Literal("cape")
  const ELYTRA: JString := Literal("elytra")
  const MODEL: JString := Literal("model")

  /** `Property.CODEC` decode: a compound with string `name` and `value` and an optional string `signature`. */
  function DecodeProperty(t: Tag): Result<Property, C.CodecError>
  {
    if !t.Compound? then Err(C.NotA(COMPOUND))
    else
      var name :- GetStringOrThrow(t.entries, NAME);
      var value :- GetStringOrThrow(t.entries, VALUE);
      Ok(Property(name, value, GetStringOrNull(t.entries, SIGNATURE)))
  }

  /** `Property.CODEC` encode: `name`, `value`, and `signature` when there is one. */
  function EncodeProperty(p: Property): Tag
  {
    var e := SetTag(SetTag([], NAME, String(p.name)), VALUE, String(p.value));
    Compound(if p.signature.Some? then SetTag(e, SIGNATURE, String(p.signature.value)) else e)
  }

  function PropertyCodec(): C.Codec<Property>
  {
    C.Codec(DecodeProperty, EncodeProperty)
  }

  /** The legacy form of the property list: a compound from each name to a list of values, each an unsigned property. */
  function MapForm(entries: seq<Entry>): Result<seq<Property>, C.CodecError>
    decreases |entries|
  {
    if entries == [] then Ok([])
    else
      var values :- C.StringListCodec().decode(entries[0].tag);
      var more :- MapForm(entries[1..]);
      Ok(seq(|values|, i requires 0 <= i < |values| => Property(entries[0].name, values[i], None)) + more)
  }

  /** `PROPERTY_MAP`: decodes either form; encodes as the list of `Property.CODEC` compounds. */
  function PropertyMap(): C.Codec<seq<Property>>
  {
    C.Codec((t: Tag) => if t.Compound? then MapForm(t.entries) else C.ApplyList(PropertyCodec()).decode(t),
            (ps: seq<Property>) => C.ApplyList(PropertyCodec()).encode(ps))
  }

  /** `SkinPatch.decode`: each field from its key, absent when the key is. */
  function DecodeSkinPatch(entries: seq<Entry>): Result<SkinPatch, C.CodecError>
  {
    var body :- GetOrNull(entries, TEXTURE, C.StringCodec());
    var cape :- GetOrNull(entries, CAPE, C.StringCodec());
    var elytra :- GetOrNull(entries, ELYTRA, C.StringCodec());
    var model :- GetOrNull(entries, MODEL, M.ModelCodec());
    Ok(SkinPatch(body, cape, elytra, model))
  }

  /** `SkinPatch.encode`: each present field under its key. */
  function EncodeSkinPatch(entries: seq<Entry>, p: SkinPatch): seq<Entry>
  {
    var e1 := SetIfPresent(entries, TEXTURE, p.body, C.StringCodec());
    var e2 := SetIfPresent(e1, CAPE, p.cape, C.StringCodec());
    var e3 := SetIfPresent(e2, ELYTRA, p.elytra, C.StringCodec());
    SetIfPresent(e3, MODEL, p.model, M.ModelCodec())
  }

  /** `decode`: a bare string is a name-only profile; otherwise a compound with optional `id`, `name`, `properties` and skin patch keys. */
  function Decode(t: Tag): Result<ItemProfile, C.CodecError>
  {
    if t.String? then Ok(ItemProfile(Some(t.s), None, [], EMPTY_PATCH))
    else if !t.Compound? then Err(C.NotA(COMPOUND))
    else
      var id :- GetOrNull(t.entries, ID, C.UuidCodec());
      var properties :- GetOr(t.entries, PROPERTIES, PropertyMap(), []);
      var patch :- DecodeSkinPatch(t.entries);
      Ok(ItemProfile(GetStringOrNull(t.entries, NAME), id, properties, patch))
  }

  /** `encode`: `id` and `name` when present, `properties` when not empty, then the skin patch. */
  function Encode(p: ItemProfile): Tag
  {
    Compound(EncodeSkinPatch(ProfileCompound(p), p.skinPatch))
  }

  /** The entries `encode` sets before the skin patch: `id` and `name` when present, `properties` when not empty. */
  function ProfileCompound(p: ItemProfile): seq<Entry>
  {
    var e1 := SetIfPresent([], ID, p.id, C.UuidCodec());
    var e2 := SetIfPresent(e1, NAME, p.name, C.StringCodec());
    SetIfPresent(e2, PROPERTIES, if p.properties != [] then Some(p.properties) else None, PropertyMap())
  }

  /** A property's keys differ in length. */
  lemma PropertyKeysDistinct()
    ensures NAME != VALUE && NAME != SIGNATURE && VALUE != SIGNATURE
  {
  }

  /** The profile's keys are distinct: they differ in length, or for `name` and `cape` in their first letter. */
  lemma KeysDistinct()
    ensures ID != NAME && ID != PROPERTIES && ID != TEXTURE && ID != CAPE && ID != ELYTRA && ID != MODEL
    ensures NAME != PROPERTIES && NAME != TEXTURE && NAME != CAPE && NAME != ELYTRA && NAME != MODEL
    ensures PROPERTIES != TEXTURE && PROPERTIES != CAPE && PROPERTIES != ELYTRA && PROPERTIES != MODEL
    ensures TEXTURE != CAPE && TEXTURE != ELYTRA && TEXTURE != MODEL
    ensures CAPE != ELYTRA && CAPE != MODEL && ELYTRA != MODEL
  {
    assert NAME[0] != CAPE[0];
  }

  /** `Property.CODEC` decodes every property it encodes. */
  lemma PropertyCodecRoundTrip()
    ensures C.RoundTrips(PropertyCodec(), p => true)
  {
    forall p: Property ensures DecodeProperty(EncodeProperty(p)) == Ok(p) {
      PropertyNbtRoundTrip(p);
    }
  }

  lemma PropertyNbtRoundTrip(p: Property)
    ensures DecodeProperty(EncodeProperty(p)) == Ok(p)
  {
    PropertyKeysDistinct();
    var e1 := SetTag([], NAME, String(p.name));
    var e2 := SetTag(e1, VALUE, String(p.value));
    var e3 := if p.signature.Some? then SetTag(e2, SIGNATURE, String(p.signature.value)) else e2;
    SetTagGet([], NAME, String(p.name));
    SetTagGet(e1, VALUE, String(p.value));
    assert Get(e2, NAME) == Some(String(p.name)) && Get(e2, VALUE) == Some(String(p.value));
    if p.signature.Some? {
      SetTagGet(e2, SIGNATURE, String(p.signature.value));
    } else {
      assert Get(e2, SIGNATURE) == None;
    }
    assert GetStringOrThrow(e3, NAME) == Ok(p.name);
    assert GetStringOrThrow(e3, VALUE) == Ok(p.value);
    assert GetStringOrNull(e3, SIGNATURE) == p.signature;
  }

  /** A property missing its `name` or `value`, or carrying one that is not a string, is refused. */
  lemma PropertyRequiresStrings(entries: seq<Entry>)
    ensures DecodeProperty(Compound(entries)).Ok? <==>
      GetStringOrNull(entries, NAME).Some? && GetStringOrNull(entries, VALUE).Some?
    ensures !HasName(entries, NAME) ==> DecodeProperty(Compound(entries)) == Err(C.MissingKey(NAME))
  {
  }

  /** Whatever the generic list bridge encodes is never a compound, so `PROPERTY_MAP` never mistakes its own output for the legacy form. */
  lemma ListEncodingNotCompound(value: seq<Tag>)
    ensures !C.GenericListEncode(value).Compound?
  {
  }

  /** `PROPERTY_MAP` decodes every property list it encodes. */
  lemma PropertyMapRoundTrip()
    ensures C.RoundTrips(PropertyMap(), ps => true)
  {
    PropertyCodecRoundTrip();
    C.ApplyListRoundTrip(PropertyCodec(), p => true);
    forall ps: seq<Property> ensures PropertyMap().decode(PropertyMap().encode(ps)) == Ok(ps) {
      ListEncodingNotCompound(C.EncodeAll(PropertyCodec(), ps));
    }
  }

  /**
   * The legacy form decodes iff every entry holds a list of strings; each
   * property it gives is unsigned and named after an entry of the compound.
   */
  lemma {:induction false} MapFormSpec(entries: seq<Entry>)
    ensures MapForm(entries).Ok? <==> forall i :: 0 <= i < |entries| ==> C.StringListCodec().decode(entries[i].tag).Ok?
    ensures MapForm(entries).Ok? ==> var r := MapForm(entries).value;
      forall k :: 0 <= k < |r| ==> r[k].signature == None && HasName(entries, r[k].name)
    decreases |entries|
  {
    if entries != [] {
      MapFormSpec(entries[1..]);
      var values := C.StringListCodec().decode(entries[0].tag);
      if values.Ok? && MapForm(entries[1..]).Ok? {
        var head := seq(|values.value|, i requires 0 <= i < |values.value| => Property(entries[0].name, values.value[i], None));
        var more := MapForm(entries[1..]).value;
        var r := MapForm(entries).value;
        assert r == head + more;
        forall k | 0 <= k < |r| ensures r[k].signature == None && HasName(entries, r[k].name) {
          if k < |head| {
            assert r[k] == head[k];
          } else {
            assert r[k] == more[k - |head|];
            var j :| 0 <= j < |entries[1..]| && entries[1..][j].name == r[k].name;
            assert entries[j + 1].name == r[k].name;
          }
        }
      }
      forall i | 0 <= i < |entries[1..]| ensures entries[1..][i] == entries[i + 1] { }
      if forall i :: 0 <= i < |entries| ==> C.StringListCodec().decode(entries[i].tag).Ok? {
        assert values.Ok?;
      }
    }
  }

  /** `SkinPatch.decode` takes back what `SkinPatch.encode` adds to a compound without its keys, and the other keys keep their tags. */
  lemma SkinPatchNbtRoundTrip(entries: seq<Entry>, sp: SkinPatch)
    requires Get(entries, TEXTURE) == None && Get(entries, CAPE) == None
    requires Get(entries, ELYTRA) == None && Get(entries, MODEL) == None
    ensures DecodeSkinPatch(EncodeSkinPatch(entries, sp)) == Ok(sp)
    ensures forall n :: n != TEXTURE && n != CAPE && n != ELYTRA && n != MODEL ==>
      Get(EncodeSkinPatch(entries, sp), n) == Get(entries, n)
  {
    KeysDistinct();
    C.StringRoundTrip();
    var f4 := EncodeSkinPatch(entries, sp);
    assert GetOrNull(f4, TEXTURE, C.StringCodec()) == Ok(sp.body);
    assert GetOrNull(f4, CAPE, C.StringCodec()) == Ok(sp.cape);
    assert GetOrNull(f4, ELYTRA, C.StringCodec()) == Ok(sp.elytra);
    assert GetOrNull(f4, MODEL, M.ModelCodec()) == Ok(sp.model);
  }

  /** The profile's own keys in the compound `encode` builds before the skin patch. */
  lemma ProfileEntries(p: ItemProfile)
    ensures var e := ProfileCompound(p);
      && Get(e, ID) == (if p.id.Some? then Some(C.UuidCodec().encode(p.id.value)) else None)
      && Get(e, NAME) == (if p.name.Some? then Some(String(p.name.value)) else None)
      && Get(e, PROPERTIES) == (if p.properties != [] then Some(PropertyMap().encode(p.properties)) else None)
      && Get(e, TEXTURE) == None && Get(e, CAPE) == None && Get(e, ELYTRA) == None && Get(e, MODEL) == None
  {
    KeysDistinct();
  }

  /** The round trip through `encode` and `decode` for every profile whose UUID halves are Java longs. */
  lemma NbtRoundTrip(p: ItemProfile)
    requires p.id.Some? ==> C.IsUuid(p.id.value)
    ensures Decode(Encode(p)) == Ok(p)
  {
    var e := ProfileCompound(p);
    var f := EncodeSkinPatch(e, p.skinPatch);
    ProfileEntries(p);
    SkinPatchNbtRoundTrip(e, p.skinPatch);
    KeysDistinct();
    assert Get(f, ID) == Get(e, ID) && Get(f, NAME) == Get(e, NAME) && Get(f, PROPERTIES) == Get(e, PROPERTIES);
    assert GetOrNull(f, ID, C.UuidCodec()) == Ok(p.id) by {
      C.UuidRoundTrip([]);
    }
    assert GetOr(f, PROPERTIES, PropertyMap(), []) == Ok(p.properties) by {
      PropertyMapRoundTrip();
    }
    assert GetStringOrNull(f, NAME) == p.name;
  }

  /** The bare-string form is the name-only profile: it decodes as that profile's compound does. */
  lemma NameOnlyForms(name: JString)
    ensures Decode(String(name)) == Decode(Encode(ItemProfile(Some(name), None, [], EMPTY_PATCH)))
    ensures Decode(String(name)).Ok? && Decode(String(name)).value.name == Some(name)
  {
    NbtRoundTrip(ItemProfile(Some(name), None, [], EMPTY_PATCH));
  }
}
