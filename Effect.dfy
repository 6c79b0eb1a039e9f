/**
 * The level-event (effect) packet: an event type, a position, a data value
 * and whether the event is global. Before 1.8 the position is two ints
 * around an unsigned byte for y.
 */
module Effect {
  import opened Wrappers
  import opened JavaInts
  import opened Vectors
  import P = PacketStream

  datatype Event = Event(effectType: int32, position: Vector3i, data: int32, globalEvent: bool)

  /** Before 1.8: x as an int, y as `readByte() & 0xFF`, z as an int. */
  function ReadLegacyPosition(s: seq<P.Token>): Result<P.Read<Vector3i>, P.StreamError>
  {
    var x :- P.ReadInt(s);
    var y :- P.ReadByte(x.rest);
    var z :- P.ReadInt(y.rest);
    Ok(P.Read(Vector3i(x.value, Unsigned8(y.value), z.value), z.rest))
  }

  /** Before 1.8: x, then `writeByte(y & 0xFF)`, then z. */
  function WriteLegacyPosition(v: Vector3i): seq<P.Token>
  {
    [P.Int(v.x)] + P.WriteByte(v.y % 0x100) + [P.Int(v.z)]
  }

  /** What `read` takes from the buffer. */
  function Decode(version: int, s: seq<P.Token>): Result<P.Read<Event>, P.StreamError>
  {
    var effectType :- P.ReadInt(s);
    var position :- if version >= P.V_1_8 then ReadBlockPosition(effectType.rest) else ReadLegacyPosition(effectType.rest);
    var data :- P.ReadInt(position.rest);
    var globalEvent :- P.ReadBool(data.rest);
    Ok(P.Read(Event(effectType.value, position.value, data.value, globalEvent.value), globalEvent.rest))
  }

  function WritePosition(version: int, v: Vector3i): seq<P.Token>
  {
    if version >= P.V_1_8 then WriteBlockPosition(v) else WriteLegacyPosition(v)
  }

  /** What `write` appends. */
  function Encode(version: int, e: Event): seq<P.Token>
  {
    [P.Int(e.effectType)] + (WritePosition(version, e.position) + [P.Int(e.data), P.Bool(e.globalEvent)])
  }

  /** The legacy position comes back with y reduced to its low 8 bits, unsigned. */
  lemma LegacyPositionRoundTrip(v: Vector3i, rest: seq<P.Token>)
    ensures ReadLegacyPosition(WriteLegacyPosition(v) + rest) == Ok(P.Read(v.(y := v.y % 0x100), rest))
  {
    var s := WriteLegacyPosition(v) + rest;
    assert s == [P.Int(v.x)] + (P.WriteByte(v.y % 0x100) + ([P.Int(v.z)] + rest));
    P.ByteRoundTrip(v.y % 0x100, [P.Int(v.z)] + rest);
    var b := ToByte(v.y % 0x100);
    assert Unsigned8(b) == v.y % 0x100 by {
      ModUnique(Unsigned8(b) - v.y % 0x100, TWO_8, (Unsigned8(b) - v.y % 0x100) / TWO_8, 0);
    }
    assert s[1..] == P.WriteByte(v.y % 0x100) + ([P.Int(v.z)] + rest);
    assert (P.WriteByte(v.y % 0x100) + ([P.Int(v.z)] + rest))[1..] == [P.Int(v.z)] + rest;
  }

  /** The event the reader ends with: the same, except that before 1.8 only y's low 8 bits survive. */
  function Carried(version: int, e: Event): Event
  {
    if version >= P.V_1_8 then e else e.(position := e.position.(y := e.position.y % 0x100))
  }

  /** `read` takes back what `write` wrote with the same version. */
  lemma RoundTrip(version: int, e: Event, rest: seq<P.Token>)
    ensures Decode(version, Encode(version, e) + rest) == Ok(P.Read(Carried(version, e), rest))
  {
    var tail := [P.Int(e.data), P.Bool(e.globalEvent)] + rest;
    var s := Encode(version, e) + rest;
    assert s == [P.Int(e.effectType)] + (WritePosition(version, e.position) + tail);
    assert s[1..] == WritePosition(version, e.position) + tail;
    if version >= P.V_1_8 {
      BlockPositionRoundTrip(e.position, tail);
    } else {
      LegacyPositionRoundTrip(e.position, tail);
    }
    assert tail[1..][1..] == rest;
  }

  /** Before 1.8 a position survives exactly when its y is an unsigned byte. */
  lemma LegacyKeepsPosition(version: int, e: Event)
    requires version < P.V_1_8
    ensures Carried(version, e) == e <==> 0 <= e.position.y < 0x100
  {
    if Carried(version, e) == e {
      assert e.position.y == e.position.y % 0x100;
    }
  }

  /** The packet wrapper: its server version, its buffer, and the event fields. */
  class Wrapper {
    const version: int
    var buffer: seq<P.Token>
    var effectType: int32
    var position: Vector3i
    var data: int32
    var globalEvent: bool

    function Fields(): Event
      reads this
    {
      Event(effectType, position, data, globalEvent)
    }

    /** The wrapper around a received packet: fields at Java's defaults, the position unset (modelled as the origin). */
    constructor FromEvent(version: int, buffer: seq<P.Token>)
      ensures this.version == version && this.buffer == buffer
      ensures Fields() == Event(0, Vector3i(0, 0, 0), 0, false)
    {
      this.version := version;
      this.buffer := buffer;
      effectType, position, data, globalEvent := 0, Vector3i(0, 0, 0), 0, false;
    }

    constructor (version: int, effectType: int32, position: Vector3i, data: int32, globalEvent: bool)
      ensures this.version == version && buffer == []
      ensures Fields() == Event(effectType, position, data, globalEvent)
    {
      this.version := version;
      buffer := [];
      this.effectType, this.position, this.data, this.globalEvent := effectType, position, data, globalEvent;
    }

    /** `read`: each field in turn; a field already read stays set if a later one fails. */
    method Read() returns (o: Outcome<P.StreamError>)
      modifies this
      ensures var r := Decode(version, old(buffer));
        (o.Pass? <==> r.Ok?) && (r.Ok? ==> Fields() == r.value.value && buffer == r.value.rest)
    {
      var t := P.ReadInt(buffer);
      if t.Err? { return Fail(t.error); }
      effectType, buffer := t.value.value, t.value.rest;
      var p := if version >= P.V_1_8 then ReadBlockPosition(buffer) else ReadLegacyPosition(buffer);
      if p.Err? { return Fail(p.error); }
      position, buffer := p.value.value, p.value.rest;
      var d := P.ReadInt(buffer);
      if d.Err? { return Fail(d.error); }
      data, buffer := d.value.value, d.value.rest;
      var g := P.ReadBool(buffer);
      if g.Err? { return Fail(g.error); }
      globalEvent, buffer := g.value.value, g.value.rest;
      return Pass;
    }

    /** `write`: appends the fields. */
    method Write()
      modifies this
      ensures Fields() == old(Fields())
      ensures buffer == old(buffer) + Encode(version, Fields())
    {
      buffer := buffer + [P.Int(effectType)];
      buffer := buffer + WritePosition(version, position);
      buffer := buffer + [P.Int(data)];
      buffer := buffer + [P.Bool(globalEvent)];
    }

    /** `copy`: every field of `other`. */
    method Copy(other: Wrapper)
      modifies this
      ensures Fields() == old(other.Fields())
      ensures buffer == old(buffer)
    {
      effectType, position, data, globalEvent := other.effectType, other.position, other.data, other.globalEvent;
    }
  }
}
