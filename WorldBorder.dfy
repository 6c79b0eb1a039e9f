/**
 * The world-border packet of versions before 1.17: an action id, then the
 * fields that action carries. From 1.12 the id is the action's ordinal;
 * before, its legacy id. Doubles are kept as their bits.
 */
module WorldBorder {
  import opened Wrappers
  import opened JavaInts
  import P = PacketStream

  /** `WorldBorderAction`, in declaration order. */
  datatype Action = SET_SIZE | LERP_SIZE | SET_CENTER | INITIALIZE | SET_WARNING_TIME | SET_WARNING_BLOCKS

  const VALUES: seq<Action> := [SET_SIZE, LERP_SIZE, SET_CENTER, INITIALIZE, SET_WARNING_TIME, SET_WARNING_BLOCKS]

  /** `getId`: the ordinal. */
  function Id(a: Action): (r: nat)
    ensures r < |VALUES| && VALUES[r] == a
  {
    match a
    case SET_SIZE => 0
    case LERP_SIZE => 1
    case SET_CENTER => 2
    case INITIALIZE => 3
    case SET_WARNING_TIME => 4
    case SET_WARNING_BLOCKS => 5
  }

  /** `getLegacyId`: the id each constant is declared with. */
  function LegacyId(a: Action): int
  {
    match a
    case SET_SIZE => 1
    case LERP_SIZE => 2
    case SET_CENTER => 3
    case INITIALIZE => 6
    case SET_WARNING_TIME => 5
    case SET_WARNING_BLOCKS => 4
  }

  /** `fromId`: `values()[id]`, which throws outside the ordinals. */
  function FromId(id: int): (r: Result<Action, P.StreamError>)
    ensures r.Ok? <==> 0 <= id < |VALUES|
    ensures r.Ok? ==> Id(r.value) == id
  {
    if 0 <= id < |VALUES| then Ok(VALUES[id]) else Err(P.NoSuchValue(id))
  }

  /** The first constant from index `i` on whose legacy id is `id`. */
  function LegacyLookup(id: int, i: nat): Option<Action>
    requires i <= |VALUES|
    decreases |VALUES| - i
  {
    if i == |VALUES| then None
    else if LegacyId(VALUES[i]) == id then Some(VALUES[i])
    else LegacyLookup(id, i + 1)
  }

  /** `fromLegacyId`: the first constant, in declaration order, with that legacy id; `null` when none has it. */
  method FromLegacyId(id: int) returns (r: Option<Action>)
    ensures r == LegacyLookup(id, 0)
  {
    var i := 0;
    while i < |VALUES|
      invariant 0 <= i <= |VALUES|
      invariant LegacyLookup(id, i) == LegacyLookup(id, 0)
    {
      if LegacyId(VALUES[i]) == id {
        return Some(VALUES[i]);
      }
      i := i + 1;
    }
    return None;
  }

  /** Both id maps invert their lookups: `fromId` every ordinal, `fromLegacyId` every legacy id, and `fromLegacyId` is null exactly outside 1..6. */
  lemma IdsRoundTrip(a: Action, id: int)
    ensures FromId(Id(a)) == Ok(a)
    ensures LegacyLookup(LegacyId(a), 0) == Some(a)
    ensures LegacyLookup(id, 0).None? <==> !(1 <= id <= 6)
    ensures LegacyLookup(id, 0).Some? ==> LegacyId(LegacyLookup(id, 0).value) == id
  {
    LegacyLookupSpec(id, 0);
    LegacyLookupSpec(LegacyId(a), 0);
  }

  /** The lookup finds a constant from index `i` on with the id, if there is one, and only such a constant. */
  lemma {:induction false} LegacyLookupSpec(id: int, i: nat)
    requires i <= |VALUES|
    ensures LegacyLookup(id, i).Some? <==> exists j :: i <= j < |VALUES| && LegacyId(VALUES[j]) == id
    ensures LegacyLookup(id, i).Some? ==> LegacyId(LegacyLookup(id, i).value) == id
    decreases |VALUES| - i
  {
    if i < |VALUES| {
      LegacyLookupSpec(id, i + 1);
      if LegacyLookup(id, i + 1).Some? && LegacyId(VALUES[i]) != id {
        var j :| i + 1 <= j < |VALUES| && LegacyId(VALUES[j]) == id;
      }
    }
  }

  datatype Border = Border(
    action: Option<Action>,
    radius: int, oldRadius: int, newRadius: int, speed: int64,
    centerX: int, centerZ: int,
    portalTeleportBoundary: int32, warningTime: int32, warningBlocks: int32)

  /** The fields `read` takes for an action, in order; the others keep their values. */
  function ReadPayload(f: Border, s: seq<P.Token>): Result<P.Read<Border>, P.StreamError>
  {
    match f.action
    case None => Ok(P.Read(f, s))
    case Some(SET_SIZE) =>
      var radius :- P.ReadDouble(s);
      Ok(P.Read(f.(radius := radius.value), radius.rest))
    case Some(LERP_SIZE) =>
      var lerp :- ReadLerp(s);
      Ok(P.Read(f.(oldRadius := lerp.value.0, newRadius := lerp.value.1, speed := lerp.value.2), lerp.rest))
    case Some(SET_CENTER) =>
      var center :- ReadCenter(s);
      Ok(P.Read(f.(centerX := center.value.0, centerZ := center.value.1), center.rest))
    case Some(INITIALIZE) =>
      var center :- ReadCenter(s);
      var lerp :- ReadLerp(center.rest);
      var portal :- P.ReadVarInt(lerp.rest);
      var time :- P.ReadVarInt(portal.rest);
      var blocks :- P.ReadVarInt(time.rest);
      Ok(P.Read(Border(f.action, f.radius, lerp.value.0, lerp.value.1, lerp.value.2, center.value.0, center.value.1,
        portal.value, time.value, blocks.value), blocks.rest))
    case Some(SET_WARNING_TIME) =>
      var time :- P.ReadVarInt(s);
      Ok(P.Read(f.(warningTime := time.value), time.rest))
    case Some(SET_WARNING_BLOCKS) =>
      var blocks :- P.ReadVarInt(s);
      Ok(P.Read(f.(warningBlocks := blocks.value), blocks.rest))
  }

  /** Old radius, new radius, speed. */
  function ReadLerp(s: seq<P.Token>): Result<P.Read<(int, int, int64)>, P.StreamError>
  {
    var oldRadius :- P.ReadDouble(s);
    var newRadius :- P.ReadDouble(oldRadius.rest);
    var speed :- P.ReadVarLong(newRadius.rest);
    Ok(P.Read((oldRadius.value, newRadius.value, speed.value), speed.rest))
  }

  /** Centre x, centre z. */
  function ReadCenter(s: seq<P.Token>): Result<P.Read<(int, int)>, P.StreamError>
  {
    var x :- P.ReadDouble(s);
    var z :- P.ReadDouble(x.rest);
    Ok(P.Read((x.value, z.value), z.rest))
  }

  /** The fields `write` sends for an action. */
  function WritePayload(a: Action, f: Border): seq<P.Token>
  {
    match a
    case SET_SIZE => [P.Double(f.radius)]
    case LERP_SIZE => [P.Double(f.oldRadius), P.Double(f.newRadius), P.VarLong(f.speed)]
    case SET_CENTER => [P.Double(f.centerX), P.Double(f.centerZ)]
    case INITIALIZE => [P.Double(f.centerX), P.Double(f.centerZ), P.Double(f.oldRadius), P.Double(f.newRadius),
      P.VarLong(f.speed), P.VarInt(f.portalTeleportBoundary), P.VarInt(f.warningTime), P.VarInt(f.warningBlocks)]
    case SET_WARNING_TIME => [P.VarInt(f.warningTime)]
    case SET_WARNING_BLOCKS => [P.VarInt(f.warningBlocks)]
  }

  /** The action id a version uses. */
  function WireId(version: int, a: Action): int32
  {
    if version >= P.V_1_12 then Id(a) else LegacyId(a)
  }

  /** The action an id names for a version: an error for an unknown ordinal, null for an unknown legacy id. */
  function ActionOf(version: int, id: int): Result<Option<Action>, P.StreamError>
  {
    if version >= P.V_1_12 then (var a :- FromId(id); Ok(Some(a))) else Ok(LegacyLookup(id, 0))
  }

  /** What `read` takes from the buffer. */
  function Decode(version: int, prev: Border, s: seq<P.Token>): Result<P.Read<Border>, P.StreamError>
  {
    var id :- P.ReadVarInt(s);
    var action :- ActionOf(version, id.value);
    ReadPayload(prev.(action := action), id.rest)
  }

  /** What `write` appends; nothing, as a null pointer exception, without an action. */
  function Encode(version: int, f: Border): Option<seq<P.Token>>
  {
    if f.action.None? then None
    else Some([P.VarInt(WireId(version, f.action.value))] + WritePayload(f.action.value, f))
  }

  /** The fields an action carries, taken from `f`; the rest from `prev`. */
  function Carried(f: Border, prev: Border): Border
    requires f.action.Some?
  {
    match f.action.value
    case SET_SIZE => prev.(action := f.action, radius := f.radius)
    case LERP_SIZE => prev.(action := f.action, oldRadius := f.oldRadius, newRadius := f.newRadius, speed := f.speed)
    case SET_CENTER => prev.(action := f.action, centerX := f.centerX, centerZ := f.centerZ)
    case INITIALIZE => f.(radius := prev.radius)
    case SET_WARNING_TIME => prev.(action := f.action, warningTime := f.warningTime)
    case SET_WARNING_BLOCKS => prev.(action := f.action, warningBlocks := f.warningBlocks)
  }

  lemma PayloadRoundTrip(f: Border, prev: Border, rest: seq<P.Token>)
    requires f.action.Some?
    ensures ReadPayload(prev.(action := f.action), WritePayload(f.action.value, f) + rest) == Ok(P.Read(Carried(f, prev), rest))
  {
    var s := WritePayload(f.action.value, f) + rest;
    match f.action.value
    case SET_SIZE => assert s[1..] == rest;
    case LERP_SIZE => assert s[1..][1..][1..] == rest;
    case SET_CENTER => assert s[1..][1..] == rest;
    case INITIALIZE =>
      assert s[1..][1..] == s[2..];
      assert s[2..][1..][1..][1..] == s[5..];
      assert s[5..][1..][1..][1..] == rest;
    case SET_WARNING_TIME => assert s[1..] == rest;
    case SET_WARNING_BLOCKS => assert s[1..] == rest;
  }

  /** `read` takes back what `write` wrote with the same version: the action and the fields it carries. */
  lemma RoundTrip(version: int, f: Border, prev: Border, rest: seq<P.Token>)
    ensures Encode(version, f).None? <==> f.action.None?
    ensures Encode(version, f).Some? ==>
      Decode(version, prev, Encode(version, f).value + rest) == Ok(P.Read(Carried(f, prev), rest))
  {
    if f.action.Some? {
      var a := f.action.value;
      var s := Encode(version, f).value + rest;
      assert s[1..] == WritePayload(a, f) + rest;
      IdsRoundTrip(a, 0);
      assert ActionOf(version, WireId(version, a)) == Ok(f.action);
      PayloadRoundTrip(f, prev, rest);
    }
  }

  /** Before 1.12 an unknown legacy id reads as a null action with no fields; from 1.12 an unknown ordinal fails. */
  lemma UnknownIds(version: int, id: int32, prev: Border, rest: seq<P.Token>)
    ensures version < P.V_1_12 && !(1 <= id <= 6) ==>
      Decode(version, prev, [P.VarInt(id)] + rest) == Ok(P.Read(prev.(action := None), rest))
    ensures version >= P.V_1_12 && !(0 <= id < 6) ==>
      Decode(version, prev, [P.VarInt(id)] + rest) == Err(P.NoSuchValue(id))
  {
    assert ([P.VarInt(id)] + rest)[1..] == rest;
    IdsRoundTrip(SET_SIZE, id);
  }

  /** The packet wrapper: its server version, its buffer, and the border fields. */
  class Wrapper {
    const version: int
    var buffer: seq<P.Token>
    var action: Option<Action>
    var radius: int
    var oldRadius: int
    var newRadius: int
    var speed: int64
    var centerX: int
    var centerZ: int
    var portalTeleportBoundary: int32
    var warningTime: int32
    var warningBlocks: int32

    function Fields(): Border
      reads this
    {
      Border(action, radius, oldRadius, newRadius, speed, centerX, centerZ, portalTeleportBoundary, warningTime, warningBlocks)
    }

    /** The wrapper around a received packet: no action, every number zero. */
    constructor FromEvent(version: int, buffer: seq<P.Token>)
      ensures this.version == version && this.buffer == buffer
      ensures Fields() == Border(None, 0, 0, 0, 0, 0, 0, 0, 0, 0)
    {
      this.version := version;
      this.buffer := buffer;
      action, radius, oldRadius, newRadius, speed := None, 0, 0, 0, 0;
      centerX, centerZ, portalTeleportBoundary, warningTime, warningBlocks := 0, 0, 0, 0, 0;
    }

    /** The constructors for one action: its fields as given, every other number zero. */
    constructor (version: int, f: Border)
      requires f.action.Some?
      ensures this.version == version && buffer == []
      ensures Fields() == Carried(f, Border(None, 0, 0, 0, 0, 0, 0, 0, 0, 0))
    {
      this.version := version;
      buffer := [];
      var c := Carried(f, Border(None, 0, 0, 0, 0, 0, 0, 0, 0, 0));
      action, radius, oldRadius, newRadius, speed := c.action, c.radius, c.oldRadius, c.newRadius, c.speed;
      centerX, centerZ, portalTeleportBoundary, warningTime, warningBlocks := c.centerX, c.centerZ, c.portalTeleportBoundary, c.warningTime, c.warningBlocks;
    }

    /** `read`: the action, then the fields it carries; a field already read stays set if a later one fails. */
    method Read() returns (o: Outcome<P.StreamError>)
      modifies this
      ensures var r := Decode(version, old(Fields()), old(buffer));
        (o.Pass? <==> r.Ok?) && (r.Ok? ==> Fields() == r.value.value && buffer == r.value.rest)
    {
      var id := P.ReadVarInt(buffer);
      if id.Err? { return Fail(id.error); }
      buffer := id.value.rest;
      if version >= P.V_1_12 {
        var a := FromId(id.value.value);
        if a.Err? { return Fail(a.error); }
        action := Some(a.value);
      } else {
        action := FromLegacyId(id.value.value);
      }
      o := ReadFields();
    }

    /** The fields of the current action, in the order `read` takes them. */
    method ReadFields() returns (o: Outcome<P.StreamError>)
      modifies this
      ensures var r := ReadPayload(old(Fields()), old(buffer));
        (o.Pass? <==> r.Ok?) && (r.Ok? ==> Fields() == r.value.value && buffer == r.value.rest)
    {
      if action == Some(SET_SIZE) {
        var r := P.ReadDouble(buffer);
        if r.Err? { return Fail(r.error); }
        radius, buffer := r.value.value, r.value.rest;
      } else if action == Some(LERP_SIZE) {
        o := ReadLerpFields();
        return;
      } else if action == Some(SET_CENTER) {
        o := ReadCenterFields();
        return;
      } else if action == Some(INITIALIZE) {
        o := ReadInitializeFields();
        return;
      } else if action == Some(SET_WARNING_TIME) {
        var t := P.ReadVarInt(buffer);
        if t.Err? { return Fail(t.error); }
        warningTime, buffer := t.value.value, t.value.rest;
      } else if action == Some(SET_WARNING_BLOCKS) {
        var b := P.ReadVarInt(buffer);
        if b.Err? { return Fail(b.error); }
        warningBlocks, buffer := b.value.value, b.value.rest;
      }
      return Pass;
    }

    method ReadInitializeFields() returns (o: Outcome<P.StreamError>)
      modifies this
      requires action == Some(INITIALIZE)
      ensures var r := ReadPayload(old(Fields()), old(buffer));
        (o.Pass? <==> r.Ok?) && (r.Ok? ==> Fields() == r.value.value && buffer == r.value.rest)
    {
      o := ReadCenterFields();
      if o.Fail? { return; }
      o := ReadLerpFields();
      if o.Fail? { return; }
      var p := P.ReadVarInt(buffer);
      if p.Err? { return Fail(p.error); }
      portalTeleportBoundary, buffer := p.value.value, p.value.rest;
      var t := P.ReadVarInt(buffer);
      if t.Err? { return Fail(t.error); }
      warningTime, buffer := t.value.value, t.value.rest;
      var b := P.ReadVarInt(buffer);
      if b.Err? { return Fail(b.error); }
      warningBlocks, buffer := b.value.value, b.value.rest;
    }

    method ReadLerpFields() returns (o: Outcome<P.StreamError>)
      modifies this
      ensures var r := ReadLerp(old(buffer));
        (o.Pass? <==> r.Ok?)
        && (r.Ok? ==> Fields() == old(Fields()).(oldRadius := r.value.value.0, newRadius := r.value.value.1, speed := r.value.value.2)
                      && buffer == r.value.rest)
    {
      var a := P.ReadDouble(buffer);
      if a.Err? { return Fail(a.error); }
      oldRadius, buffer := a.value.value, a.value.rest;
      var b := P.ReadDouble(buffer);
      if b.Err? { return Fail(b.error); }
      newRadius, buffer := b.value.value, b.value.rest;
      var c := P.ReadVarLong(buffer);
      if c.Err? { return Fail(c.error); }
      speed, buffer := c.value.value, c.value.rest;
      return Pass;
    }

    method ReadCenterFields() returns (o: Outcome<P.StreamError>)
      modifies this
      ensures var r := ReadCenter(old(buffer));
        (o.Pass? <==> r.Ok?)
        && (r.Ok? ==> Fields() == old(Fields()).(centerX := r.value.value.0, centerZ := r.value.value.1) && buffer == r.value.rest)
    {
      var a := P.ReadDouble(buffer);
      if a.Err? { return Fail(a.error); }
      centerX, buffer := a.value.value, a.value.rest;
      var b := P.ReadDouble(buffer);
      if b.Err? { return Fail(b.error); }
      centerZ, buffer := b.value.value, b.value.rest;
      return Pass;
    }

    /** `write`: the action id, then the action's fields; fails before appending anything without an action. */
    method Write() returns (ok: bool)
      modifies this
      ensures ok <==> Encode(version, Fields()).Some?
      ensures Fields() == old(Fields())
      ensures buffer == old(buffer) + (if ok then Encode(version, Fields()).value else [])
    {
      if action.None? { return false; }
      var id := if version >= P.V_1_12 then Id(action.value) else LegacyId(action.value);
      buffer := buffer + [P.VarInt(id)];
      buffer := buffer + WritePayload(action.value, Fields());
      return true;
    }

    /** `copy`: every field of `other`. */
    method Copy(other: Wrapper)
      modifies this
      ensures Fields() == old(other.Fields())
      ensures buffer == old(buffer)
    {
      action, radius, oldRadius, newRadius, speed := other.action, other.radius, other.oldRadius, other.newRadius, other.speed;
      centerX, centerZ, portalTeleportBoundary := other.centerX, other.centerZ, other.portalTeleportBoundary;
      warningTime, warningBlocks := other.warningTime, other.warningBlocks;
    }
  }
}
