/**
 * The player-rotation packet: yaw and pitch, each followed from 1.21.9 on by
 * a flag saying whether it is relative. Floats are kept as their bits.
 */
module PlayerRotation {
  import opened Wrappers
  import P = PacketStream

  datatype Rotation = Rotation(yaw: int, relativeYaw: bool, pitch: int, relativePitch: bool)

  /** What `read` takes from the buffer; the flags a version does not send keep their previous values. */
  function Decode(version: int, prev: Rotation, s: seq<P.Token>): Result<P.Read<Rotation>, P.StreamError>
  {
    var yaw :- P.ReadFloat(s);
    var relativeYaw :- if version >= P.V_1_21_9 then P.ReadBool(yaw.rest) else Ok(P.Read(prev.relativeYaw, yaw.rest));
    var pitch :- P.ReadFloat(relativeYaw.rest);
    var relativePitch :- if version >= P.V_1_21_9 then P.ReadBool(pitch.rest) else Ok(P.Read(prev.relativePitch, pitch.rest));
    Ok(P.Read(Rotation(yaw.value, relativeYaw.value, pitch.value, relativePitch.value), relativePitch.rest))
  }

  /** What `write` appends: yaw, pitch, and from 1.21.9 each one's flag after it. */
  function Encode(version: int, r: Rotation): seq<P.Token>
  {
    if version >= P.V_1_21_9 then [P.Float(r.yaw), P.Bool(r.relativeYaw), P.Float(r.pitch), P.Bool(r.relativePitch)]
    else [P.Float(r.yaw), P.Float(r.pitch)]
  }

  /** The rotation a reader of `version` ends with: the sent fields of `r`, the rest from `prev`. */
  function Carried(version: int, r: Rotation, prev: Rotation): Rotation
  {
    if version >= P.V_1_21_9 then r else r.(relativeYaw := prev.relativeYaw, relativePitch := prev.relativePitch)
  }

  /** `read` takes back what `write` wrote with the same version. */
  lemma RoundTrip(version: int, r: Rotation, prev: Rotation, rest: seq<P.Token>)
    ensures Decode(version, prev, Encode(version, r) + rest) == Ok(P.Read(Carried(version, r, prev), rest))
  {
    var s := Encode(version, r) + rest;
    if version >= P.V_1_21_9 {
      assert s[1..][1..][1..][1..] == rest;
    } else {
      assert s[1..][1..] == rest;
    }
  }

  /** Before 1.21.9 the flags are not on the wire: rotations that differ only in them are written alike. */
  lemma FlagsSentFrom1_21_9(version: int, a: Rotation, b: Rotation)
    requires a.yaw == b.yaw && a.pitch == b.pitch
    ensures version < P.V_1_21_9 ==> Encode(version, a) == Encode(version, b)
    ensures version >= P.V_1_21_9 ==> (Encode(version, a) == Encode(version, b) <==> a == b)
  {
    if version >= P.V_1_21_9 && Encode(version, a) == Encode(version, b) {
      assert Encode(version, a)[1] == Encode(version, b)[1];
      assert Encode(version, a)[3] == Encode(version, b)[3];
    }
  }

  /** `copy` as written: only yaw and pitch are taken from the source; the target keeps its flags. */
  function CopyAsWritten(target: Rotation, source: Rotation): Rotation
  {
    target.(yaw := source.yaw, pitch := source.pitch)
  }

  /** As written, a copy sent from 1.21.9 on can differ from its source: a relative source copied into an absolute target. */
  lemma CopyAsWrittenLosesFlags()
    ensures var source := Rotation(0, true, 0, true);
      var copy := CopyAsWritten(Rotation(0, false, 0, false), source);
      Encode(P.V_1_21_9, copy) != Encode(P.V_1_21_9, source)
  {
    var source := Rotation(0, true, 0, true);
    var copy := CopyAsWritten(Rotation(0, false, 0, false), source);
    assert Encode(P.V_1_21_9, copy)[1] != Encode(P.V_1_21_9, source)[1];
  }

  /** The packet wrapper: its server version, its buffer, and the rotation fields `read` and `write` use. */
  class Wrapper {
    const version: int
    var buffer: seq<P.Token>
    var yaw: int
    var relativeYaw: bool
    var pitch: int
    var relativePitch: bool

    function Fields(): Rotation
      reads this
    {
      Rotation(yaw, relativeYaw, pitch, relativePitch)
    }

    /** The wrapper around a received packet: fields at Java's defaults. */
    constructor FromEvent(version: int, buffer: seq<P.Token>)
      ensures this.version == version && this.buffer == buffer
      ensures Fields() == Rotation(0, false, 0, false)
    {
      this.version := version;
      this.buffer := buffer;
      yaw, relativeYaw, pitch, relativePitch := 0, false, 0, false;
    }

    /** The two-argument constructor: both rotations absolute. */
    constructor (version: int, yaw: int, pitch: int)
      ensures this.version == version && buffer == []
      ensures Fields() == Rotation(yaw, false, pitch, false)
    {
      this.version := version;
      buffer := [];
      this.yaw, relativeYaw, this.pitch, relativePitch := yaw, false, pitch, false;
    }

    constructor WithFlags(version: int, yaw: int, relativeYaw: bool, pitch: int, relativePitch: bool)
      ensures this.version == version && buffer == []
      ensures Fields() == Rotation(yaw, relativeYaw, pitch, relativePitch)
    {
      this.version := version;
      buffer := [];
      this.yaw, this.relativeYaw, this.pitch, this.relativePitch := yaw, relativeYaw, pitch, relativePitch;
    }

    /** `read`: each field in turn; a field already read stays set if a later one fails. */
    method Read() returns (o: Outcome<P.StreamError>)
      modifies this
      ensures var r := Decode(version, old(Fields()), old(buffer));
        (o.Pass? <==> r.Ok?) && (r.Ok? ==> Fields() == r.value.value && buffer == r.value.rest)
    {
      var y := P.ReadFloat(buffer);
      if y.Err? { return Fail(y.error); }
      yaw, buffer := y.value.value, y.value.rest;
      if version >= P.V_1_21_9 {
        var f := P.ReadBool(buffer);
        if f.Err? { return Fail(f.error); }
        relativeYaw, buffer := f.value.value, f.value.rest;
      }
      var p := P.ReadFloat(buffer);
      if p.Err? { return Fail(p.error); }
      pitch, buffer := p.value.value, p.value.rest;
      if version >= P.V_1_21_9 {
        var f := P.ReadBool(buffer);
        if f.Err? { return Fail(f.error); }
        relativePitch, buffer := f.value.value, f.value.rest;
      }
      return Pass;
    }

    /** `write`: appends the fields the version sends. */
    method Write()
      modifies this
      ensures Fields() == old(Fields())
      ensures buffer == old(buffer) + Encode(version, Fields())
    {
      buffer := buffer + [P.Float(yaw)];
      if version >= P.V_1_21_9 { buffer := buffer + [P.Bool(relativeYaw)]; }
      buffer := buffer + [P.Float(pitch)];
      if version >= P.V_1_21_9 { buffer := buffer + [P.Bool(relativePitch)]; }
    }

    /** `copy`, taking every field of `other`. */
    method Copy(other: Wrapper)
      modifies this
      ensures Fields() == old(other.Fields())
      ensures buffer == old(buffer)
    {
      yaw, relativeYaw, pitch, relativePitch := other.yaw, other.relativeYaw, other.pitch, other.relativePitch;
    }
  }
}
