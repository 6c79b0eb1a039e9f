/**
 * The default-spawn-position packet: from 1.21.9 a dimension, then the
 * position (a block position from 1.8, three ints before), then from 1.17
 * the yaw and from 1.21.9 the pitch. A field a version does not send keeps
 * its previous value on reading. Floats are kept as their bits, a
 * `ResourceLocation` as its string form.
 */
module SpawnPosition {
  import opened Wrappers
  import opened JavaInts
  import U = ModifiedUtf8
  import opened Vectors
  import P = PacketStream

  datatype Spawn = Spawn(dimension: Option<U.JString>, position: Vector3i, yaw: int, pitch: int)

  /** `WorldBlockPosition.OVERWORLD_DIMENSION`. */
  const OVERWORLD: U.JString := U.Literal("minecraft:overworld")

  /** Before 1.8: x, y and z as ints. */
  function ReadLegacyPosition(s: seq<P.Token>): Result<P.Read<Vector3i>, P.StreamError>
  {
    var x :- P.ReadInt(s);
    var y :- P.ReadInt(x.rest);
    var z :- P.ReadInt(y.rest);
    Ok(P.Read(Vector3i(x.value, y.value, z.value), z.rest))
  }

  function ReadPosition(version: int, s: seq<P.Token>): Result<P.Read<Vector3i>, P.StreamError>
  {
    if version >= P.V_1_8 then ReadBlockPosition(s) else ReadLegacyPosition(s)
  }

  function WritePosition(version: int, v: Vector3i): seq<P.Token>
  {
    if version >= P.V_1_8 then WriteBlockPosition(v) else [P.Int(v.x), P.Int(v.y), P.Int(v.z)]
  }

  /** What `read` takes from the buffer. */
  function Decode(version: int, prev: Spawn, s: seq<P.Token>): Result<P.Read<Spawn>, P.StreamError>
  {
    var dimension :- if version >= P.V_1_21_9 then
        (var d :- P.ReadIdent(s); Ok(P.Read(Some(d.value), d.rest)))
      else Ok(P.Read(prev.dimension, s));
    var position :- ReadPosition(version, dimension.rest);
    var yaw :- if version >= P.V_1_17 then P.ReadFloat(position.rest) else Ok(P.Read(prev.yaw, position.rest));
    var pitch :- if version >= P.V_1_21_9 then P.ReadFloat(yaw.rest) else Ok(P.Read(prev.pitch, yaw.rest));
    Ok(P.Read(Spawn(dimension.value, position.value, yaw.value, pitch.value), pitch.rest))
  }

  /** What `write` appends; nothing, as a null pointer exception, when 1.21.9 needs a dimension that is not set. */
  function Encode(version: int, f: Spawn): Option<seq<P.Token>>
  {
    if version >= P.V_1_21_9 && f.dimension.None? then None
    else Some((if version >= P.V_1_21_9 then [P.Ident(f.dimension.value)] else [])
      + (WritePosition(version, f.position)
      + ((if version >= P.V_1_17 then [P.Float(f.yaw)] else [])
      + (if version >= P.V_1_21_9 then [P.Float(f.pitch)] else []))))
  }

  /** The spawn a reader of `version` ends with: the sent fields of `f`, the rest from `prev`. */
  function Carried(version: int, f: Spawn, prev: Spawn): Spawn
  {
    Spawn(if version >= P.V_1_21_9 then f.dimension else prev.dimension,
          f.position,
          if version >= P.V_1_17 then f.yaw else prev.yaw,
          if version >= P.V_1_21_9 then f.pitch else prev.pitch)
  }

  lemma PositionRoundTrip(version: int, v: Vector3i, rest: seq<P.Token>)
    ensures ReadPosition(version, WritePosition(version, v) + rest) == Ok(P.Read(v, rest))
  {
    if version >= P.V_1_8 {
      BlockPositionRoundTrip(v, rest);
    } else {
      assert (WritePosition(version, v) + rest)[1..][1..][1..] == rest;
    }
  }

  /** `read` takes back what `write` wrote with the same version; a dimension is needed from 1.21.9 on. */
  lemma RoundTrip(version: int, f: Spawn, prev: Spawn, rest: seq<P.Token>)
    ensures Encode(version, f).None? <==> version >= P.V_1_21_9 && f.dimension.None?
    ensures Encode(version, f).Some? ==>
      Decode(version, prev, Encode(version, f).value + rest) == Ok(P.Read(Carried(version, f, prev), rest))
  {
    if Encode(version, f).Some? {
      var pitch := if version >= P.V_1_21_9 then [P.Float(f.pitch)] else [];
      var yaw := if version >= P.V_1_17 then [P.Float(f.yaw)] else [];
      var t2 := pitch + rest;
      var t1 := yaw + t2;
      var t0 := WritePosition(version, f.position) + t1;
      var dim := if version >= P.V_1_21_9 then [P.Ident(f.dimension.value)] else [];
      var s := Encode(version, f).value + rest;
      assert s == dim + t0;
      if version >= P.V_1_21_9 { assert s[1..] == t0; } else { assert s == t0; }
      PositionRoundTrip(version, f.position, t1);
      if version >= P.V_1_17 { assert t1[1..] == t2; } else { assert t1 == t2; }
      if version >= P.V_1_21_9 { assert t2[1..] == rest; } else { assert t2 == rest; }
    }
  }

  /** The packet wrapper: its server version, its buffer, and the spawn fields. */
  class Wrapper {
    const version: int
    var buffer: seq<P.Token>
    var dimension: Option<U.JString>
    var position: Vector3i
    var yaw: int
    var pitch: int

    function Fields(): Spawn
      reads this
    {
      Spawn(dimension, position, yaw, pitch)
    }

    /** The wrapper around a received packet: no dimension, zero angles, the position unset (modelled as the origin). */
    constructor FromEvent(version: int, buffer: seq<P.Token>)
      ensures this.version == version && this.buffer == buffer
      ensures Fields() == Spawn(None, Vector3i(0, 0, 0), 0, 0)
    {
      this.version := version;
      this.buffer := buffer;
      dimension, position, yaw, pitch := None, Vector3i(0, 0, 0), 0, 0;
    }

    /** The one- and two-argument constructors: the overworld, pitch 0, and yaw 0 unless given. */
    constructor (version: int, position: Vector3i, yaw: int)
      ensures this.version == version && buffer == []
      ensures Fields() == Spawn(Some(OVERWORLD), position, yaw, 0)
    {
      this.version := version;
      buffer := [];
      dimension, this.position, this.yaw, pitch := Some(OVERWORLD), position, yaw, 0;
    }

    constructor WithDimension(version: int, dimension: U.JString, position: Vector3i, yaw: int, pitch: int)
      ensures this.version == version && buffer == []
      ensures Fields() == Spawn(Some(dimension), position, yaw, pitch)
    {
      this.version := version;
      buffer := [];
      this.dimension, this.position, this.yaw, this.pitch := Some(dimension), position, yaw, pitch;
    }

    /** `read`: each field the version sends, in turn; a field already read stays set if a later one fails. */
    method Read() returns (o: Outcome<P.StreamError>)
      modifies this
      ensures var r := Decode(version, old(Fields()), old(buffer));
        (o.Pass? <==> r.Ok?) && (r.Ok? ==> Fields() == r.value.value && buffer == r.value.rest)
    {
      if version >= P.V_1_21_9 {
        var d := P.ReadIdent(buffer);
        if d.Err? { return Fail(d.error); }
        dimension, buffer := Some(d.value.value), d.value.rest;
      }
      var p := ReadPosition(version, buffer);
      if p.Err? { return Fail(p.error); }
      position, buffer := p.value.value, p.value.rest;
      if version >= P.V_1_17 {
        var y := P.ReadFloat(buffer);
        if y.Err? { return Fail(y.error); }
        yaw, buffer := y.value.value, y.value.rest;
      }
      if version >= P.V_1_21_9 {
        var q := P.ReadFloat(buffer);
        if q.Err? { return Fail(q.error); }
        pitch, buffer := q.value.value, q.value.rest;
      }
      return Pass;
    }

    /** `write`: appends the fields the version sends; fails before appending anything when a needed dimension is missing. */
    method Write() returns (ok: bool)
      modifies this
      ensures ok <==> Encode(version, Fields()).Some?
      ensures Fields() == old(Fields())
      ensures buffer == old(buffer) + (if ok then Encode(version, Fields()).value else [])
    {
      if version >= P.V_1_21_9 {
        if dimension.None? { return false; }
        buffer := buffer + [P.Ident(dimension.value)];
      }
      buffer := buffer + WritePosition(version, position);
      if version >= P.V_1_17 { buffer := buffer + [P.Float(yaw)]; }
      if version >= P.V_1_21_9 { buffer := buffer + [P.Float(pitch)]; }
      return true;
    }

    /** `copy`: every field of `other`. */
    method Copy(other: Wrapper)
      modifies this
      ensures Fields() == old(other.Fields())
      ensures buffer == old(buffer)
    {
      dimension, position, yaw, pitch := other.dimension, other.position, other.yaw, other.pitch;
    }
  }
}
