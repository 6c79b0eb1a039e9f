/**
 * `PlayerModelType`: the two player skin models, sent in packets as one
 * boolean (slim or not) and in NBT by their codec names.
 */
module PlayerModelType {
  import opened Wrappers
  import opened ModifiedUtf8
  import opened NbtTypes
  import C = NbtCodecs
  import P = PacketStream

  datatype PlayerModelType = SLIM | WIDE

  /** `values()`, in declaration order. */
  const VALUES: seq<PlayerModelType> := [SLIM, WIDE]

  /** `getCodecName`. */
  function CodecName(t: PlayerModelType): JString
  {
    match t
    case SLIM => Literal("slim")
    case WIDE => Literal("wide")
  }

  /** `CODEC`: `forEnum(values())`. */
  function Codec(): Result<C.Codec<PlayerModelType>, C.CodecError>
  {
    C.ForEnum(VALUES, CodecName)
  }

  /**
   * The codec names are distinct, so `CODEC` is built; it round-trips both
   * models and refuses any other name.
   */
  lemma CodecSpec(s: JString)
    ensures Codec().Ok?
    ensures C.RoundTrips(Codec().value, t => true)
    ensures s != CodecName(SLIM) && s != CodecName(WIDE) <==> Codec().value.decode(String(s)) == Err(C.UnknownName(s))
  {
    assert CodecName(SLIM)[0] != CodecName(WIDE)[0];
    assert C.DistinctCodecNames(VALUES, CodecName);
    C.ForEnumSpec(VALUES, CodecName, s, String(s));
    forall t ensures C.IsValue(VALUES, t) {
      assert VALUES[if t == SLIM then 0 else 1] == t;
    }
  }

  /** The built `CODEC`, which round-trips both models. */
  function ModelCodec(): (c: C.Codec<PlayerModelType>)
    ensures C.RoundTrips(c, t => true)
    ensures Codec().Ok? && c == Codec().value
  {
    CodecSpec([]);
    Codec().value
  }

  /** `read`: one boolean, true for SLIM. */
  function Read(s: seq<P.Token>): Result<P.Read<PlayerModelType>, P.StreamError>
  {
    var slim :- P.ReadBool(s);
    Ok(P.Read(if slim.value then SLIM else WIDE, slim.rest))
  }

  /** `write`: true iff the model is SLIM. */
  function Write(t: PlayerModelType): seq<P.Token>
  {
    [P.Bool(t == SLIM)]
  }

  lemma ReadWrite(t: PlayerModelType, rest: seq<P.Token>)
    ensures Read(Write(t) + rest) == Ok(P.Read(t, rest))
  {
    assert (Write(t) + rest)[1..] == rest;
  }

  /** Every boolean on the wire is some model: true exactly for SLIM, and writing it back restores the flag. */
  lemma WriteRead(b: bool, rest: seq<P.Token>)
    ensures Read([P.Bool(b)] + rest).Ok?
    ensures Read([P.Bool(b)] + rest).value.value == SLIM <==> b
    ensures Write(Read([P.Bool(b)] + rest).value.value) == [P.Bool(b)]
  {
    assert ([P.Bool(b)] + rest)[1..] == rest;
  }
}
