/**
 * The NBT value codecs. A codec pairs a decoder from tags with an encoder to
 * tags; `apply` maps a codec through a conversion, `applyList` lifts it to
 * lists through the generic list bridge, and the stock codecs cover strings,
 * generic lists, int arrays, UUIDs and enum names. A decoder that throws in
 * the source returns `Err` here.
 */
module NbtCodecs {
  import opened Wrappers
  import opened JavaInts
  import opened ModifiedUtf8
  import opened NbtTypes

  datatype CodecError =
    | NotA(expected: Kind)          // a `ClassCastException` from a cast to the tag class of `expected`
    | NotAList                      // "Not a list"
    | NotNumbers                    // "Some elements are not numbers"
    | WrongLength(length: int)      // a UUID from an int array that does not hold four ints
    | UnknownName(name: JString)    // an enum name the codec has no value for
    | DuplicateName(name: JString)  // two enum values share a codec name
    | MissingKey(key: JString)      // a required compound key that is absent or of the wrong kind

  datatype Codec<!T> = Codec(decode: Tag -> Result<T, CodecError>, encode: T -> Tag)

  /** Decoding what the codec encodes gives back every value `valid` admits. */
  ghost predicate RoundTrips<T(!new)>(c: Codec<T>, valid: T -> bool)
  {
    forall v :: valid(v) ==> c.decode(c.encode(v)) == Ok(v)
  }

  // ---------------------------------------------------------------- apply

  /** `apply(forward, back)`: decode then convert forward; convert back then encode. */
  function Apply<T, Z>(c: Codec<T>, forward: T -> Result<Z, CodecError>, back: Z -> T): Codec<Z>
  {
    Codec(t => match c.decode(t) case Ok(v) => forward(v) case Err(e) => Err(e),
          z => c.encode(back(z)))
  }

  /** The applied codec decodes by `forward` after the inner decoder and encodes by the inner encoder after `back`. */
  lemma ApplyComposes<T, Z>(c: Codec<T>, forward: T -> Result<Z, CodecError>, back: Z -> T, t: Tag, z: Z)
    ensures c.decode(t).Ok? ==> Apply(c, forward, back).decode(t) == forward(c.decode(t).value)
    ensures c.decode(t).Err? ==> Apply(c, forward, back).decode(t) == Err(c.decode(t).error)
    ensures Apply(c, forward, back).encode(z) == c.encode(back(z))
  {
  }

  /** If the inner codec round-trips and `forward` undoes `back`, the applied codec round-trips. */
  lemma ApplyRoundTrip<T(!new), Z(!new)>(c: Codec<T>, forward: T -> Result<Z, CodecError>, back: Z -> T,
                             validT: T -> bool, validZ: Z -> bool)
    requires RoundTrips(c, validT)
    requires forall z :: validZ(z) ==> validT(back(z)) && forward(back(z)) == Ok(z)
    ensures RoundTrips(Apply(c, forward, back), validZ)
  {
    forall z | validZ(z) ensures Apply(c, forward, back).decode(Apply(c, forward, back).encode(z)) == Ok(z) {
      assert c.decode(c.encode(back(z))) == Ok(back(z));
    }
  }

  // ---------------------------------------------------------------- GENERIC_LIST

  /** The empty name under which a wrapped list element is stored. */
  const WRAPPER_KEY: JString := []

  /** A compound with a single entry under the empty name: the wrapping of one list element. */
  predicate IsWrapper(t: Tag)
  {
    t.Compound? && |t.entries| == 1 && t.entries[0].name == WRAPPER_KEY
  }

  /** `NBTList.addTagOrWrap`: a compound that is not a wrapper goes in as it is, anything else is wrapped. */
  function WrapIfNeeded(t: Tag): Tag
  {
    if t.Compound? && !IsWrapper(t) then t else Compound([Entry(WRAPPER_KEY, t)])
  }

  /** The element a compound list holds: a wrapper gives up its inner tag. */
  function Unwrap(t: Tag): Tag
  {
    if IsWrapper(t) then t.entries[0].tag else t
  }

  /** `NBTList.unwrapTags`: the elements of a list, unwrapped when the list holds compounds. */
  function UnwrapTags(elemKind: Kind, items: seq<Tag>): seq<Tag>
  {
    if elemKind == COMPOUND then seq(|items|, i requires 0 <= i < |items| => Unwrap(items[i])) else items
  }

  predicate AllOfKind(tags: seq<Tag>, k: Kind)
  {
    forall i :: 0 <= i < |tags| ==> tags[i].Kind() == k
  }

  /** `NBTList.getCommonTagType`: the kind all elements share, COMPOUND when they differ. */
  function CommonKind(tags: seq<Tag>): (k: Kind)
    requires tags != []
    ensures k == COMPOUND || AllOfKind(tags, k)
  {
    if AllOfKind(tags, tags[0].Kind()) then tags[0].Kind() else COMPOUND
  }

  predicate IsArrayElement(k: Kind)
  {
    k == BYTE || k == INT || k == LONG
  }

  /** The scalar tag of kind `k` holding `v`. */
  function Scalar(k: Kind, v: int): (t: Tag)
    requires IsArrayElement(k)
    ensures t.Kind() == k
  {
    if k == BYTE then Byte(v) else if k == INT then Int(v) else Long(v)
  }

  /** The list of scalar tags an array of kind `k` expands to. */
  function Expand(a: seq<int>, k: Kind): (r: seq<Tag>)
    requires IsArrayElement(k)
  {
    seq(|a|, i requires 0 <= i < |a| => Scalar(k, a[i]))
  }

  /** The values of a list of BYTE, INT or LONG tags. */
  function Values(tags: seq<Tag>, k: Kind): (r: seq<int>)
    requires IsArrayElement(k) && AllOfKind(tags, k)
  {
    seq(|tags|, i requires 0 <= i < |tags| => tags[i].v)
  }

  /** `GENERIC_LIST.decode`: a list's (unwrapped) elements, or an array's values as scalar tags. */
  function GenericListDecode(nbt: Tag): Result<seq<Tag>, CodecError>
  {
    match nbt
    case List(k, items) => Ok(UnwrapTags(k, items))
    case IntArray(a) => Ok(Expand(a, INT))
    case ByteArray(a) => Ok(Expand(a, BYTE))
    case LongArray(a) => Ok(Expand(a, LONG))
    case _ => Err(NotAList)
  }

  /**
   * `GENERIC_LIST.encode`: an END list when empty, a list of (wrapped)
   * compounds for compounds or mixed kinds, the matching array for all
   * BYTE, INT or LONG, and otherwise a list of the common kind.
   */
  function GenericListEncode(value: seq<Tag>): Tag
  {
    if value == [] then List(END, [])
    else
      var k := CommonKind(value);
      if k == COMPOUND then List(COMPOUND, seq(|value|, i requires 0 <= i < |value| => WrapIfNeeded(value[i])))
      else if k == INT then IntArray(Values(value, INT))
      else if k == BYTE then ByteArray(Values(value, BYTE))
      else if k == LONG then LongArray(Values(value, LONG))
      else List(k, value)
  }

  /** Expanding the values of same-kind scalars gives the scalars back. */
  lemma ExpandValues(value: seq<Tag>, k: Kind)
    requires IsArrayElement(k) && AllOfKind(value, k)
    ensures Expand(Values(value, k), k) == value
  {
    var r := Expand(Values(value, k), k);
    forall i | 0 <= i < |value| ensures r[i] == value[i] {
      assert value[i].Kind() == k;
    }
  }

  /**
   * Every list the generic bridge encodes decodes back to itself: arrays
   * expand to the same scalars and wrapped compounds unwrap to the original
   * elements.
   */
  lemma GenericListRoundTrip(value: seq<Tag>)
    ensures GenericListDecode(GenericListEncode(value)) == Ok(value)
  {
    if value != [] {
      var k := CommonKind(value);
      if k == COMPOUND {
        var items := seq(|value|, i requires 0 <= i < |value| => WrapIfNeeded(value[i]));
        forall i | 0 <= i < |value| ensures Unwrap(items[i]) == value[i] {
          var t := value[i];
          if !(t.Compound? && !IsWrapper(t)) {
            assert IsWrapper(items[i]);
          }
        }
        assert UnwrapTags(COMPOUND, items) == value;
      } else if IsArrayElement(k) {
        ExpandValues(value, k);
      }
    }
  }

  /** The generic bridge encodes an empty list as an empty END list. */
  lemma GenericListEmpty()
    ensures GenericListEncode([]) == List(END, [])
    ensures GenericListDecode(List(END, [])) == Ok([])
  {
  }

  /**
   * Only lists and the three numeric arrays decode; an array becomes a list
   * of scalars of its element kind, of the same length and in the same order.
   */
  lemma GenericListDecodeShape(nbt: Tag)
    ensures GenericListDecode(nbt).Ok? <==> nbt.List? || nbt.IntArray? || nbt.ByteArray? || nbt.LongArray?
    ensures nbt.IntArray? ==> var r := GenericListDecode(nbt).value;
      |r| == |nbt.ints| && forall i :: 0 <= i < |r| ==> r[i] == Int(nbt.ints[i])
    ensures nbt.ByteArray? ==> var r := GenericListDecode(nbt).value;
      |r| == |nbt.bytes| && forall i :: 0 <= i < |r| ==> r[i] == Byte(nbt.bytes[i])
    ensures nbt.LongArray? ==> var r := GenericListDecode(nbt).value;
      |r| == |nbt.longs| && forall i :: 0 <= i < |r| ==> r[i] == Long(nbt.longs[i])
  {
  }

  /** `new ArrayList<>(arr.length)` filled by a loop over an array of kind `k`. */
  method ExpandArray(arr: seq<int>, k: Kind) returns (list: seq<Tag>)
    requires IsArrayElement(k)
    ensures list == Expand(arr, k)
  {
    list := [];
    for i := 0 to |arr|
      invariant |list| == i && forall j :: 0 <= j < i ==> list[j] == Scalar(k, arr[j])
    {
      list := list + [Scalar(k, arr[i])];
    }
  }

  /** `GENERIC_LIST.decode` as the source runs it, one loop per array kind. */
  method DecodeGenericList(nbt: Tag) returns (r: Result<seq<Tag>, CodecError>)
    ensures r == GenericListDecode(nbt)
  {
    match nbt {
      case List(k, items) =>
        return Ok(UnwrapTags(k, items));
      case IntArray(a) =>
        var list := ExpandArray(a, INT);
        return Ok(list);
      case ByteArray(a) =>
        var list := ExpandArray(a, BYTE);
        return Ok(list);
      case LongArray(a) =>
        var list := ExpandArray(a, LONG);
        return Ok(list);
      case _ =>
        return Err(NotAList);
    }
  }

  /** `new int[n]` (or `byte[]`, `long[]`) filled from a list of same-kind scalars. */
  method FillArray(value: seq<Tag>, k: Kind) returns (a: seq<int>)
    requires IsArrayElement(k) && AllOfKind(value, k)
    ensures a == Values(value, k)
  {
    var arr := new int[|value|];
    for i := 0 to arr.Length
      invariant forall j :: 0 <= j < i ==> arr[j] == value[j].v
    {
      assert value[i].Kind() == k;
      arr[i] := value[i].v;
    }
    a := arr[..];
  }

  /** `GENERIC_LIST.encode` as the source runs it: a wrapping loop for compounds, a filling loop for arrays. */
  method EncodeGenericList(value: seq<Tag>) returns (r: Tag)
    ensures r == GenericListEncode(value)
  {
    if value == [] {
      return List(END, []);
    }
    var k := CommonKind(value);
    if k == COMPOUND {
      var list: seq<Tag> := [];
      for i := 0 to |value|
        invariant |list| == i && forall j :: 0 <= j < i ==> list[j] == WrapIfNeeded(value[j])
      {
        list := list + [WrapIfNeeded(value[i])];
      }
      return List(COMPOUND, list);
    } else if k == INT {
      var a := FillArray(value, INT);
      return IntArray(a);
    } else if k == BYTE {
      var a := FillArray(value, BYTE);
      return ByteArray(a);
    } else if k == LONG {
      var a := FillArray(value, LONG);
      return LongArray(a);
    }
    return List(k, value);
  }

  // ---------------------------------------------------------------- applyList

  /** Decodes the elements in order; the first element that fails decides the error. */
  function DecodeAll<T>(c: Codec<T>, tags: seq<Tag>): Result<seq<T>, CodecError>
    decreases |tags|
  {
    if tags == [] then Ok([])
    else match c.decode(tags[0])
      case Err(e) => Err(e)
      case Ok(v) =>
        match DecodeAll(c, tags[1..])
        case Err(e) => Err(e)
        case Ok(vs) => Ok([v] + vs)
  }

  function EncodeAll<T>(c: Codec<T>, vs: seq<T>): seq<Tag>
  {
    seq(|vs|, i requires 0 <= i < |vs| => c.encode(vs[i]))
  }

  /** `applyList()`: the generic bridge, then the element codec on each element in order. */
  function ApplyList<T>(c: Codec<T>): Codec<seq<T>>
  {
    Codec(t => match GenericListDecode(t) case Err(e) => Err(e) case Ok(l) => DecodeAll(c, l),
          vs => GenericListEncode(EncodeAll(c, vs)))
  }

  /**
   * Decoding a list succeeds iff every element decodes; the result then has
   * the list's length and holds each element's value at its index, and on
   * failure the error is that of the first element that fails.
   */
  lemma {:induction false} DecodeAllInOrder<T>(c: Codec<T>, tags: seq<Tag>)
    ensures DecodeAll(c, tags).Ok? <==> forall i :: 0 <= i < |tags| ==> c.decode(tags[i]).Ok?
    ensures DecodeAll(c, tags).Ok? ==>
      |DecodeAll(c, tags).value| == |tags|
      && forall i :: 0 <= i < |tags| ==> DecodeAll(c, tags).value[i] == c.decode(tags[i]).value
    ensures DecodeAll(c, tags).Err? ==>
      exists i :: 0 <= i < |tags| && c.decode(tags[i]) == Err(DecodeAll(c, tags).error)
        && forall j :: 0 <= j < i ==> c.decode(tags[j]).Ok?
    decreases |tags|
  {
    if tags != [] {
      var rest := tags[1..];
      DecodeAllInOrder(c, rest);
      assert forall i :: 1 <= i < |tags| ==> tags[i] == rest[i - 1];
      var r := DecodeAll(c, tags);
      if c.decode(tags[0]).Ok? && DecodeAll(c, rest).Err? {
        var i :| 0 <= i < |rest| && c.decode(rest[i]) == Err(DecodeAll(c, rest).error)
          && forall j :: 0 <= j < i ==> c.decode(rest[j]).Ok?;
        assert c.decode(tags[i + 1]) == Err(r.error);
        assert forall j :: 0 <= j < i + 1 ==> c.decode(tags[j]).Ok? by {
          forall j | 0 <= j < i + 1 ensures c.decode(tags[j]).Ok? {
            if j > 0 { assert tags[j] == rest[j - 1]; }
          }
        }
      } else if c.decode(tags[0]).Err? {
        assert c.decode(tags[0]) == Err(r.error);
      }
    }
  }

  /** Decoding each encoded element gives the elements back. */
  lemma {:induction false} DecodeAllEncodeAll<T(!new)>(c: Codec<T>, valid: T -> bool, vs: seq<T>)
    requires RoundTrips(c, valid)
    requires forall i :: 0 <= i < |vs| ==> valid(vs[i])
    ensures DecodeAll(c, EncodeAll(c, vs)) == Ok(vs)
    decreases |vs|
  {
    if vs != [] {
      assert EncodeAll(c, vs)[1..] == EncodeAll(c, vs[1..]);
      assert c.decode(c.encode(vs[0])) == Ok(vs[0]);
      DecodeAllEncodeAll(c, valid, vs[1..]);
      assert [vs[0]] + vs[1..] == vs;
    }
  }

  /** A list of values the element codec round-trips round-trips through `applyList()`. */
  lemma ApplyListRoundTrip<T(!new)>(c: Codec<T>, valid: T -> bool)
    requires RoundTrips(c, valid)
    ensures RoundTrips(ApplyList(c), vs => forall i :: 0 <= i < |vs| ==> valid(vs[i]))
  {
    forall vs: seq<T> | forall i :: 0 <= i < |vs| ==> valid(vs[i])
      ensures ApplyList(c).decode(ApplyList(c).encode(vs)) == Ok(vs)
    {
      GenericListRoundTrip(EncodeAll(c, vs));
      DecodeAllEncodeAll(c, valid, vs);
    }
  }

  // ---------------------------------------------------------------- STRING

  /** `STRING`: a string tag's value; any other tag fails the cast. */
  function StringCodec(): Codec<JString>
  {
    Codec((t: Tag) => if t.String? then Ok(t.s) else Err(NotA(STRING)), (s: JString) => String(s))
  }

  /** `STRING_LIST`. */
  function StringListCodec(): Codec<seq<JString>>
  {
    ApplyList(StringCodec())
  }

  /** Every string round-trips through `STRING` and every list of strings through `STRING_LIST`. */
  lemma StringRoundTrip()
    ensures RoundTrips(StringCodec(), s => true)
    ensures RoundTrips(StringListCodec(), l => true)
    ensures forall t: Tag :: !t.String? ==> StringCodec().decode(t) == Err(NotA(STRING))
  {
    var valid := (s: JString) => true;
    ApplyListRoundTrip(StringCodec(), valid);
    forall l: seq<JString> ensures StringListCodec().decode(StringListCodec().encode(l)) == Ok(l) {
      assert forall i :: 0 <= i < |l| ==> valid(l[i]);
    }
  }

  // ---------------------------------------------------------------- INT_ARRAY

  predicate IsNumber(t: Tag)
  {
    t.Byte? || t.Short? || t.Int? || t.Long? || t.Float? || t.Double?
  }

  /** `NBTNumber.getAsInt`: integers as they are, a long cast to `int`, floating point narrowed toward zero. */
  function NumberAsInt(t: Tag): int
    requires IsNumber(t)
  {
    match t
    case Byte(v) => v
    case Short(v) => v
    case Int(v) => v
    case Long(v) => Wrap32(v)
    case Float(bits) => FloatToInt(bits)
    case Double(bits) => DoubleToInt(bits, false)
  }

  /** `INT_ARRAY.decode`: an int array directly, else the generic list with every element a number. */
  function IntArrayDecode(nbt: Tag): Result<seq<int>, CodecError>
  {
    if nbt.IntArray? then Ok(nbt.ints)
    else match GenericListDecode(nbt)
      case Err(e) => Err(e)
      case Ok(list) =>
        if forall i :: 0 <= i < |list| ==> IsNumber(list[i])
        then Ok(seq(|list|, i requires 0 <= i < |list| && IsNumber(list[i]) => NumberAsInt(list[i])))
        else Err(NotNumbers)
  }

  function IntArrayCodec(): Codec<seq<int>>
  {
    Codec(IntArrayDecode, a => IntArray(a))
  }

  /** `INT_ARRAY.decode` as the source runs it: the bridge, then a loop that fills `int[]`. */
  method DecodeIntArray(nbt: Tag) returns (r: Result<seq<int>, CodecError>)
    ensures r == IntArrayDecode(nbt)
  {
    if nbt.IntArray? {
      return Ok(nbt.ints);
    }
    var list := DecodeGenericList(nbt);
    if list.Err? {
      return Err(list.error);
    }
    var l := list.value;
    var arr := new int[|l|];
    for i := 0 to |l|
      invariant forall j :: 0 <= j < i ==> IsNumber(l[j]) && arr[j] == NumberAsInt(l[j])
    {
      var tag := l[i];
      if !IsNumber(tag) {
        return Err(NotNumbers);
      }
      arr[i] := NumberAsInt(tag);
    }
    assert arr[..] == seq(|l|, i requires 0 <= i < |l| && IsNumber(l[i]) => NumberAsInt(l[i]));
    return Ok(arr[..]);
  }

  /**
   * Every int array round-trips, and a list of number tags that went through
   * the generic bridge decodes to the numbers' `int` values in order, whichever
   * of the array and list forms the bridge chose.
   */
  lemma IntArrayOfNumbers(a: seq<int>, l: seq<Tag>)
    requires forall i :: 0 <= i < |l| ==> IsNumber(l[i])
    ensures IntArrayDecode(IntArray(a)) == Ok(a)
    ensures IntArrayDecode(GenericListEncode(l))
      == Ok(seq(|l|, i requires 0 <= i < |l| && IsNumber(l[i]) => NumberAsInt(l[i])))
  {
    var e := GenericListEncode(l);
    if e.IntArray? {
      var k := CommonKind(l);
      assert k == INT;
      forall i | 0 <= i < |l| ensures e.ints[i] == NumberAsInt(l[i]) {
        assert l[i].Kind() == INT;
      }
      assert e.ints == seq(|l|, i requires 0 <= i < |l| && IsNumber(l[i]) => NumberAsInt(l[i]));
    } else {
      GenericListRoundTrip(l);
    }
  }

  /** A list holding a tag that is not a number fails to decode as an int array. */
  lemma IntArrayRejectsNonNumbers(nbt: Tag, i: int)
    requires !nbt.IntArray? && GenericListDecode(nbt).Ok?
    requires 0 <= i < |GenericListDecode(nbt).value| && !IsNumber(GenericListDecode(nbt).value[i])
    ensures IntArrayDecode(nbt) == Err(NotNumbers)
  {
  }

  // ---------------------------------------------------------------- UUID

  /** A `java.util.UUID`: its most and least significant 64 bits as Java longs. */
  datatype Uuid = Uuid(msb: int, lsb: int)

  /** `(long) hi << 32 | lo & 0xFFFFFFFFL`. */
  function Join(hi: int, lo: int): int
  {
    Wrap32(hi) * TWO_32 + lo % TWO_32
  }

  /** `UniqueIdUtil.toIntArray`: the high and low halves of each long, most significant first. */
  function ToIntArray(u: Uuid): seq<int>
  {
    [Wrap32(u.msb / TWO_32), Wrap32(u.msb), Wrap32(u.lsb / TWO_32), Wrap32(u.lsb)]
  }

  /** `UniqueIdUtil.fromIntArray`: each pair of ints joined into a long. */
  function FromIntArray(a: seq<int>): Result<Uuid, CodecError>
  {
    if |a| != 4 then Err(WrongLength(|a|)) else Ok(Uuid(Join(a[0], a[1]), Join(a[2], a[3])))
  }

  /** `UUID = INT_ARRAY.apply(fromIntArray, toIntArray)`. */
  function UuidCodec(): Codec<Uuid>
  {
    Apply(IntArrayCodec(), FromIntArray, ToIntArray)
  }

  predicate IsUuid(u: Uuid)
  {
    IsLong(u.msb) && IsLong(u.lsb)
  }

  /** Splitting a long into halves and joining them gives the long back. */
  lemma JoinHalves(x: int)
    requires IsLong(x)
    ensures Join(Wrap32(x / TWO_32), Wrap32(x)) == x
  {
    var h := x / TWO_32;
    assert -TWO_31 <= h < TWO_31;
    var lo := Wrap32(x);
    assert (lo - x) % TWO_32 == 0;
    assert lo % TWO_32 == x % TWO_32 by {
      var k := (lo - x) / TWO_32;
      assert lo == x + k * TWO_32;
      assert (x + k * TWO_32) % TWO_32 == x % TWO_32;
    }
    assert h * TWO_32 + x % TWO_32 == x;
  }

  /** Every UUID round-trips through its int-array form, and an array of another length is refused. */
  lemma UuidRoundTrip(a: seq<int>)
    ensures RoundTrips(UuidCodec(), IsUuid)
    ensures |a| != 4 ==> UuidCodec().decode(IntArray(a)) == Err(WrongLength(|a|))
  {
    assert IntArrayCodec().decode(IntArray(a)) == Ok(a);
    assert RoundTrips(IntArrayCodec(), a => true);
    forall u | IsUuid(u) ensures FromIntArray(ToIntArray(u)) == Ok(u) {
      JoinHalves(u.msb);
      JoinHalves(u.lsb);
    }
    ApplyRoundTrip(IntArrayCodec(), FromIntArray, ToIntArray, a => true, IsUuid);
  }

  // ---------------------------------------------------------------- forEnum

  /**
   * The name map `forEnum` builds with `putIfAbsent`, value by value in
   * declaration order; a name already taken fails the construction.
   */
  function NameMap<T>(values: seq<T>, name: T -> JString): Result<map<JString, T>, CodecError>
    decreases |values|
  {
    if values == [] then Ok(map[])
    else match NameMap(values[..|values| - 1], name)
      case Err(e) => Err(e)
      case Ok(m) =>
        var v := values[|values| - 1];
        if name(v) in m then Err(DuplicateName(name(v))) else Ok(m[name(v) := v])
  }

  predicate DistinctCodecNames<T>(values: seq<T>, name: T -> JString)
  {
    forall i, j :: 0 <= i < j < |values| ==> name(values[i]) != name(values[j])
  }

  /** The map is built iff no two values share a codec name. */
  lemma {:induction false} NameMapBuilds<T>(values: seq<T>, name: T -> JString)
    ensures NameMap(values, name).Ok? <==> DistinctCodecNames(values, name)
    decreases |values|
  {
    if values != [] {
      var n := |values| - 1;
      var init := values[..n];
      NameMapBuilds(init, name);
      NameMapContents(init, name);
      var v := values[n];
      if NameMap(init, name).Ok? {
        var m := NameMap(init, name).value;
        if name(v) in m {
          var i :| 0 <= i < n && name(init[i]) == name(v);
          assert name(values[i]) == name(values[n]);
        } else {
          forall i, j | 0 <= i < j < |values| ensures name(values[i]) != name(values[j]) {
            assert values[i] == init[i];
            if j == n {
              assert name(init[i]) in m;
            } else {
              assert values[j] == init[j];
            }
          }
        }
      } else {
        assert !DistinctCodecNames(init, name);
        var i, j :| 0 <= i < j < n && name(init[i]) == name(init[j]);
        assert name(values[i]) == name(values[j]);
      }
    }
  }

  /** A built map holds exactly the values' names, each mapped to its value. */
  lemma {:induction false} NameMapContents<T>(values: seq<T>, name: T -> JString)
    ensures NameMap(values, name).Ok? ==>
      var m := NameMap(values, name).value;
      (forall s :: s in m <==> exists i :: 0 <= i < |values| && name(values[i]) == s)
      && forall i :: 0 <= i < |values| ==> m[name(values[i])] == values[i]
    decreases |values|
  {
    if values != [] && NameMap(values, name).Ok? {
      var n := |values| - 1;
      var init := values[..n];
      NameMapContents(init, name);
      var m0 := NameMap(init, name).value;
      var v := values[n];
      var m := m0[name(v) := v];
      assert NameMap(values, name).value == m;
      forall s ensures s in m <==> exists i :: 0 <= i < |values| && name(values[i]) == s {
        if s in m0 {
          var i :| 0 <= i < n && name(init[i]) == s;
          assert name(values[i]) == s;
        }
        if exists i :: 0 <= i < |values| && name(values[i]) == s {
          var i :| 0 <= i < |values| && name(values[i]) == s;
          if i < n {
            assert name(init[i]) == s;
          }
        }
      }
      forall i | 0 <= i < |values| ensures m[name(values[i])] == values[i] {
        if i < n {
          assert values[i] == init[i];
          assert name(init[i]) in m0;
        }
      }
    }
  }

  /** Once a prefix of the values fails, the whole sequence fails with the same error. */
  lemma {:induction false} NameMapFailsOnward<T>(values: seq<T>, name: T -> JString, i: nat)
    requires i <= |values| && NameMap(values[..i], name).Err?
    ensures NameMap(values, name) == NameMap(values[..i], name)
    decreases |values| - i
  {
    if i < |values| {
      assert values[..i + 1][..i] == values[..i];
      NameMapFailsOnward(values, name, i + 1);
    } else {
      assert values[..i] == values;
    }
  }

  /** `forEnum`'s initializer: the `putIfAbsent` loop over the values. */
  method BuildNameMap<T>(values: seq<T>, name: T -> JString) returns (r: Result<map<JString, T>, CodecError>)
    ensures r == NameMap(values, name)
  {
    var m: map<JString, T> := map[];
    for i := 0 to |values|
      invariant NameMap(values[..i], name) == Ok(m)
    {
      var v := values[i];
      assert values[..i + 1][..i] == values[..i];
      if name(v) in m {
        NameMapFailsOnward(values, name, i + 1);
        return Err(DuplicateName(name(v)));
      }
      m := m[name(v) := v];
    }
    assert values[..|values|] == values;
    return Ok(m);
  }

  /** The decoder of an enum codec: a string tag's value looked up in the name map. */
  function EnumDecode<T>(m: map<JString, T>, nbt: Tag): Result<T, CodecError>
  {
    if !nbt.String? then Err(NotA(STRING))
    else if nbt.s in m then Ok(m[nbt.s])
    else Err(UnknownName(nbt.s))
  }

  /** `forEnum(values)`: fails on a duplicate name; encodes a value as its codec name. */
  function ForEnum<T>(values: seq<T>, name: T -> JString): Result<Codec<T>, CodecError>
  {
    match NameMap(values, name)
    case Err(e) => Err(e)
    case Ok(m) => Ok(Codec(t => EnumDecode(m, t), v => String(name(v))))
  }

  /** The values of an enum codec's type. */
  ghost predicate IsValue<T>(values: seq<T>, v: T)
  {
    exists i :: 0 <= i < |values| && values[i] == v
  }

  /**
   * `forEnum` builds a codec iff the codec names are distinct; that codec
   * round-trips every value, refuses a name no value has, and refuses a tag
   * that is not a string.
   */
  lemma ForEnumSpec<T(!new)>(values: seq<T>, name: T -> JString, s: JString, t: Tag)
    ensures ForEnum(values, name).Ok? <==> DistinctCodecNames(values, name)
    ensures ForEnum(values, name).Ok? ==>
      var c := ForEnum(values, name).value;
      RoundTrips(c, v => IsValue(values, v))
      && ((forall i :: 0 <= i < |values| ==> name(values[i]) != s) <==> c.decode(String(s)) == Err(UnknownName(s)))
      && (!t.String? ==> c.decode(t) == Err(NotA(STRING)))
  {
    NameMapBuilds(values, name);
    NameMapContents(values, name);
    if NameMap(values, name).Ok? {
      var m := NameMap(values, name).value;
      var c := ForEnum(values, name).value;
      forall v | IsValue(values, v) ensures c.decode(c.encode(v)) == Ok(v) {
        var i :| 0 <= i < |values| && values[i] == v;
        assert m[name(values[i])] == values[i];
      }
      if forall i :: 0 <= i < |values| ==> name(values[i]) != s {
        assert s !in m;
      } else {
        var i :| 0 <= i < |values| && name(values[i]) == s;
        assert s in m;
      }
    }
  }
}
