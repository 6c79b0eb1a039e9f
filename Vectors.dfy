/**
 * `Vector3i` and `Vector3d` as the packet wrappers send them: a block
 * position token, and three doubles kept as their bits.
 */
module Vectors {
  import opened Wrappers
  import opened JavaInts
  import P = PacketStream

  datatype Vector3i = Vector3i(x: int32, y: int32, z: int32)

  datatype Vector3d = Vector3d(x: int, y: int, z: int)

  /** `readBlockPosition`. */
  function ReadBlockPosition(s: seq<P.Token>): Result<P.Read<Vector3i>, P.StreamError>
  {
    var p :- P.ReadBlockPos(s);
    Ok(P.Read(Vector3i(p.value.0, p.value.1, p.value.2), p.rest))
  }

  /** `writeBlockPosition`. */
  function WriteBlockPosition(v: Vector3i): seq<P.Token>
  {
    [P.BlockPos(v.x, v.y, v.z)]
  }

  /** `Vector3d.read`: three doubles. */
  function ReadVector3d(s: seq<P.Token>): Result<P.Read<Vector3d>, P.StreamError>
  {
    var x :- P.ReadDouble(s);
    var y :- P.ReadDouble(x.rest);
    var z :- P.ReadDouble(y.rest);
    Ok(P.Read(Vector3d(x.value, y.value, z.value), z.rest))
  }

  /** `Vector3d.write`. */
  function WriteVector3d(v: Vector3d): seq<P.Token>
  {
    [P.Double(v.x), P.Double(v.y), P.Double(v.z)]
  }

  lemma BlockPositionRoundTrip(v: Vector3i, rest: seq<P.Token>)
    ensures ReadBlockPosition(WriteBlockPosition(v) + rest) == Ok(P.Read(v, rest))
  {
    assert (WriteBlockPosition(v) + rest)[1..] == rest;
  }

  lemma Vector3dRoundTrip(v: Vector3d, rest: seq<P.Token>)
    ensures ReadVector3d(WriteVector3d(v) + rest) == Ok(P.Read(v, rest))
  {
    assert (WriteVector3d(v) + rest)[1..][1..][1..] == rest;
  }

  lemma Vector3dInverse()
    ensures P.Inverse(ReadVector3d, WriteVector3d, v => true)
  {
    forall v, rest ensures ReadVector3d(WriteVector3d(v) + rest) == Ok(P.Read(v, rest)) {
      Vector3dRoundTrip(v, rest);
    }
  }
}
