/**
 * The skip table of the streaming NBT reader (`TAG_SKIPS`): for each kind
 * but END, a routine that charges the limiter and moves the stream past one
 * payload of that kind without building it.
 *
 * Like the eager readers, each skipper is a function of the stream, the
 * position and the limiter's state. `DataInput.skipBytes` stops quietly at
 * the end of the stream, so a truncated scalar, string or array is skipped
 * without an error; `readInt`, `readUnsignedShort` and the type byte do fail
 * at the end of the stream.
 */
module TagSkips {
  import opened Wrappers
  import opened JavaInts
  import opened ModifiedUtf8
  import opened NbtLimiter
  import opened NbtTypes
  import D = DefaultNbtSerializer

  /** What a skipper leaves: the new position and limiter state, or the error and the state at that point. */
  type Skipped = D.Parsed<()>

  /** `DataInput.skipBytes(n)`: up to `n` bytes, fewer at the end of the stream, none for `n <= 0`. */
  function SkipBytes(data: seq<u8>, pos: nat, n: int): (p: nat)
    requires pos <= |data|
    ensures pos <= p <= |data|
    ensures n <= 0 ==> p == pos
    ensures n > 0 ==> p == if pos + n <= |data| then pos + n else |data|
  {
    if n <= 0 then pos else if pos + n <= |data| then pos + n else |data|
  }

  /** `DataInput.readInt`. */
  function ReadInt(data: seq<u8>, pos: nat, b: Budget): (r: D.Parsed<int>)
    ensures r.budget == b
    ensures r.Parsed? <==> pos + 4 <= |data|
    ensures r.Parsed? ==> r.pos == pos + 4 && IsInt(r.value)
  {
    if pos + 4 > |data| then D.Failed(EndOfStream, b)
    else
      IntOfRange(data[pos..pos + 4]);
      D.Parsed(IntOf(data[pos..pos + 4]), pos + 4, b)
  }

  /** `DataInput.readUnsignedShort`. */
  function ReadUnsignedShort(data: seq<u8>, pos: nat, b: Budget): (r: D.Parsed<int>)
    ensures r.budget == b
    ensures r.Parsed? <==> pos + 2 <= |data|
    ensures r.Parsed? ==> r.pos == pos + 2
  {
    if pos + 2 > |data| then D.Failed(EndOfStream, b)
    else D.Parsed(UnsignedShortOf(data[pos..pos + 2]), pos + 2, b)
  }

  /**
   * A scalar skipper: charge the object header and the Java type's `BYTES`,
   * then skip that many bytes. (The eager SHORT reader charges `Short.SIZE`,
   * 16, instead; see `D.NumberCost`.)
   */
  function SkipScalar(k: Kind, data: seq<u8>, pos: nat, b: Budget): (r: Skipped)
    requires pos <= |data| && D.IsNumber(k)
    ensures D.Follows(b, r.budget)
    ensures r.Parsed? <==> D.Charge(b, D.OBJECT_HEADER_BYTES + D.NumberWidth(k)).Ok?
    ensures r.Parsed? ==> r.pos == SkipBytes(data, pos, D.NumberWidth(k))
  {
    match D.Charge(b, D.OBJECT_HEADER_BYTES + D.NumberWidth(k))
    case Err(e) => D.Failed(e, b)
    case Ok(b1) => D.Parsed((), SkipBytes(data, pos, D.NumberWidth(k)), b1)
  }

  /**
   * An array skipper: charge the header, read the length, charge and check
   * `length` elements' bytes, then skip them. There is no 2^24 guard here,
   * and the byte count is the exact product; the source's 32-bit product is
   * `SkipArrayAsWritten`.
   */
  function SkipArray(k: Kind, data: seq<u8>, pos: nat, b: Budget): (r: Skipped)
    requires pos <= |data| && D.IsArray(k)
    ensures D.Follows(b, r.budget)
    ensures r.Parsed? ==> pos + 4 <= r.pos <= |data|
  {
    match D.Charge(b, D.ARRAY_COST)
    case Err(e) => D.Failed(e, b)
    case Ok(b1) =>
      match ReadInt(data, pos, b1)
      case Failed(e, b2) => D.Failed(e, b2)
      case Parsed(length, p, _) =>
        var bytes := D.ArrayBytes(k, length);
        match D.Charge(b1, bytes)
        case Err(e) => D.Failed(e, b1)
        case Ok(b2) =>
          match b2.CheckReadability(bytes, |data| - p)
          case Fail(e) => D.Failed(Limit(e), b2)
          case Pass => D.Parsed((), SkipBytes(data, p, bytes), b2)
  }

  /**
   * The array skipper exactly as written: `length * Integer.BYTES` and
   * `length * Long.BYTES` are 32-bit products, and nothing refuses a length
   * of 2^24 or more, so a large length wraps to a small charge, a small
   * readability check and a short skip.
   */
  function SkipArrayAsWritten(k: Kind, data: seq<u8>, pos: nat, b: Budget): (r: Skipped)
    requires pos <= |data| && D.IsArray(k)
    ensures D.Follows(b, r.budget)
    ensures r.Parsed? ==> pos + 4 <= r.pos <= |data|
  {
    match D.Charge(b, D.ARRAY_COST)
    case Err(e) => D.Failed(e, b)
    case Ok(b1) =>
      match ReadInt(data, pos, b1)
      case Failed(e, b2) => D.Failed(e, b2)
      case Parsed(length, p, _) =>
        var bytes := Wrap32(D.ArrayBytes(k, length));
        match D.Charge(b1, bytes)
        case Err(e) => D.Failed(e, b1)
        case Ok(b2) =>
          match b2.CheckReadability(bytes, |data| - p)
          case Fail(e) => D.Failed(Limit(e), b2)
          case Pass => D.Parsed((), SkipBytes(data, p, bytes), b2)
  }

  /**
   * An INT_ARRAY announcing 2^30 + 1 elements, followed by four more bytes:
   * as written the skipper charges and checks 4 bytes, which a fresh default
   * limiter accepts, and leaves the stream after those 4 bytes; the
   * corrected skipper refuses the charge, and the eager reader refuses the
   * length.
   */
  lemma AsWrittenArraySkipWraps()
    ensures var data: seq<u8> := [0x40, 0, 0, 1, 7, 7, 7, 7];
      var b := ForBuffer(DEFAULT_MAX_SIZE, DEFAULT_MAX_DEPTH);
      && SkipArrayAsWritten(INT_ARRAY, data, 0, b) == D.Parsed((), 8, b.(bytes := D.ARRAY_COST + 4))
      && SkipArray(INT_ARRAY, data, 0, b).Failed?
      && D.ReadArray(INT_ARRAY, data, 0, b).Failed?
  {
    var data: seq<u8> := [0x40, 0, 0, 1, 7, 7, 7, 7];
    var b := ForBuffer(DEFAULT_MAX_SIZE, DEFAULT_MAX_DEPTH);
    assert data[0..4] == [0x40, 0, 0, 1];
    var h := data[0..4];
    assert h[..3] == [0x40, 0, 0] && h[..3][..2] == [0x40, 0] && h[..3][..2][..1] == [0x40];
    assert FromBigEndian([0x40]) == 0x40;
    assert FromBigEndian([0x40, 0]) == 0x4000;
    assert FromBigEndian([0x40, 0, 0]) == 0x40_0000;
    assert FromBigEndian(h) == 0x4000_0001;
    assert IntOf(data[0..4]) == 0x4000_0001;
    assert 4 * 0x4000_0001 == TWO_32 + 4;
    assert Wrap32(D.ArrayBytes(INT_ARRAY, 0x4000_0001)) == 4;
    D.ArrayHeaderGuards(INT_ARRAY, data, 0, b);
  }

  /** Where the byte count fits in 32 bits the as-written skipper and the corrected one agree. */
  lemma AsWrittenArraySkipAgrees(k: Kind, data: seq<u8>, pos: nat, b: Budget)
    requires pos + 4 <= |data| && D.IsArray(k) && IsInt(D.ArrayBytes(k, IntOf(data[pos..pos + 4])))
    ensures SkipArrayAsWritten(k, data, pos, b) == SkipArray(k, data, pos, b)
  {
  }

  /**
   * Under an enforcing limiter, a successful array skip passes over exactly
   * the bytes the length announces, all of them in the stream, and charges
   * exactly those bytes after the header.
   */
  lemma ArraySkipExact(k: Kind, data: seq<u8>, pos: nat, b: Budget)
    requires pos <= |data| && D.IsArray(k) && b.Bounded?
    ensures SkipArray(k, data, pos, b).Parsed? ==>
      var length := IntOf(data[pos..pos + 4]);
      var r := SkipArray(k, data, pos, b);
      && 0 <= length
      && r.pos == pos + 4 + D.ArrayBytes(k, length) <= |data|
      && r.budget == b.(bytes := b.bytes + D.ARRAY_COST + D.ArrayBytes(k, length))
  {
    var r := SkipArray(k, data, pos, b);
    if r.Parsed? {
      IncrementSpec(b, D.ARRAY_COST);
      var b1 := b.Increment(D.ARRAY_COST).value;
      var length := IntOf(data[pos..pos + 4]);
      IncrementSpec(b1, D.ArrayBytes(k, length));
    }
  }

  /** The STRING skipper: charge 36, read the length, charge two bytes per length unit, skip the bytes. */
  function SkipString(data: seq<u8>, pos: nat, b: Budget): (r: Skipped)
    requires pos <= |data|
    ensures D.Follows(b, r.budget)
    ensures r.Parsed? ==> pos + 2 <= r.pos <= |data|
  {
    match D.Charge(b, D.STRING_COST)
    case Err(e) => D.Failed(e, b)
    case Ok(b1) =>
      match ReadUnsignedShort(data, pos, b1)
      case Failed(e, b2) => D.Failed(e, b2)
      case Parsed(length, p, _) =>
        match D.Charge(b1, 2 * length)
        case Err(e) => D.Failed(e, b1)
        case Ok(b2) => D.Parsed((), SkipBytes(data, p, length), b2)
  }

  /** The skipper registered for kind `k`; END has none, and looking it up fails. */
  function Skip(k: Kind, data: seq<u8>, pos: nat, b: Budget): (r: Skipped)
    requires pos <= |data|
    decreases |data| - pos, 2, 0
    ensures D.Follows(b, r.budget)
    ensures r.Parsed? ==> pos <= r.pos <= |data|
  {
    match k
    case END => D.Failed(NoSkipper, b)
    case STRING => SkipString(data, pos, b)
    case LIST => SkipList(data, pos, b)
    case COMPOUND => SkipCompound(data, pos, b)
    case BYTE_ARRAY => SkipArray(k, data, pos, b)
    case INT_ARRAY => SkipArray(k, data, pos, b)
    case LONG_ARRAY => SkipArray(k, data, pos, b)
    case _ => SkipScalar(k, data, pos, b)
  }

  /** The LIST skipper: one level deeper, and back on every path. */
  function SkipList(data: seq<u8>, pos: nat, b: Budget): (r: Skipped)
    requires pos <= |data|
    decreases |data| - pos, 1, 0
    ensures D.Follows(b, r.budget)
    ensures r.Parsed? ==> pos + 5 <= r.pos <= |data|
  {
    match b.EnterDepth()
    case Err(e) => D.Failed(Limit(e), b)
    case Ok(b1) => D.ExitAfter(SkipListBody(data, pos, b1))
  }

  /** The body of the LIST skipper: the list's charge, element kind, size, reference charge, then the elements. */
  function SkipListBody(data: seq<u8>, pos: nat, b: Budget): (r: Skipped)
    requires pos <= |data|
    decreases |data| - pos, 0, 0
    ensures D.Follows(b, r.budget)
    ensures r.Parsed? ==> pos + 5 <= r.pos <= |data|
  {
    match D.Charge(b, D.LIST_COST)
    case Err(e) => D.Failed(e, b)
    case Ok(b1) =>
      match D.ReadTagType(data, pos, b1)
      case Failed(e, b2) => D.Failed(e, b2)
      case Parsed(k, p, _) =>
        match ReadInt(data, p, b1)
        case Failed(e, b2) => D.Failed(e, b2)
        case Parsed(length, q, _) =>
          match D.Charge(b1, D.ListRefCharge(length))
          case Err(e) => D.Failed(e, b1)
          case Ok(b2) => SkipItems(k, if length < 0 then 0 else length, data, q, b2)
  }

  /** The LIST skipper's loop: `n` more elements of kind `k`. */
  function SkipItems(k: Kind, n: nat, data: seq<u8>, pos: nat, b: Budget): (r: Skipped)
    requires pos <= |data|
    decreases |data| - pos, 3, n
    ensures D.Follows(b, r.budget)
    ensures r.Parsed? ==> pos <= r.pos <= |data|
  {
    if n == 0 then D.Parsed((), pos, b)
    else
      match Skip(k, data, pos, b)
      case Failed(e, b1) => D.Failed(e, b1)
      case Parsed(_, p, b1) => SkipItems(k, n - 1, data, p, b1)
  }

  /** The COMPOUND skipper: one level deeper, and back on every path. */
  function SkipCompound(data: seq<u8>, pos: nat, b: Budget): (r: Skipped)
    requires pos <= |data|
    decreases |data| - pos, 1, 0
    ensures D.Follows(b, r.budget)
    ensures r.Parsed? ==> pos < r.pos <= |data|
  {
    match b.EnterDepth()
    case Err(e) => D.Failed(Limit(e), b)
    case Ok(b1) => D.ExitAfter(SkipCompoundBody(data, pos, b1))
  }

  /** The body of the COMPOUND skipper: the map's charge, then entries up to END. */
  function SkipCompoundBody(data: seq<u8>, pos: nat, b: Budget): (r: Skipped)
    requires pos <= |data|
    decreases |data| - pos, 0, 1
    ensures D.Follows(b, r.budget)
    ensures r.Parsed? ==> pos < r.pos <= |data|
  {
    match D.Charge(b, D.COMPOUND_COST)
    case Err(e) => D.Failed(e, b)
    case Ok(b1) => SkipEntries({}, data, pos, b1)
  }

  /**
   * The COMPOUND skipper's loop: read a type; on END stop; otherwise read
   * the name (charged like `readString`), charge the entry overhead for a
   * name not seen before in this compound, and skip the value.
   */
  function SkipEntries(names: set<JString>, data: seq<u8>, pos: nat, b: Budget): (r: Skipped)
    requires pos <= |data|
    decreases |data| - pos, 0, 0
    ensures D.Follows(b, r.budget)
    ensures r.Parsed? ==> pos < r.pos <= |data|
  {
    match D.ReadTagType(data, pos, b)
    case Failed(e, b1) => D.Failed(e, b1)
    case Parsed(k, p, _) =>
      if k == END then D.Parsed((), p, b)
      else
        match D.ReadString(data, p, b)
        case Failed(e, b1) => D.Failed(e, b1)
        case Parsed(name, q, b1) =>
          match NameCharge(names, name, b1)
          case Err(e) => D.Failed(e, b1)
          case Ok(b2) =>
            match Skip(k, data, q, b2)
            case Failed(e, b3) => D.Failed(e, b3)
            case Parsed(_, q2, b3) => SkipEntries(names + {name}, data, q2, b3)
  }

  /** `if (names.add(name)) limiter.increment(ENTRY_COST)`. */
  function NameCharge(names: set<JString>, name: JString, b: Budget): (r: Result<Budget, Error>)
    ensures name in names ==> r == Ok(b)
    ensures name !in names ==> r == D.Charge(b, D.ENTRY_COST)
  {
    if name in names then Ok(b) else D.Charge(b, D.ENTRY_COST)
  }

  /**
   * Skipping a payload passes over exactly the bytes that reading it
   * consumes, whenever reading it succeeds (charges aside: both run under
   * the no-op limiter here).
   */
  lemma {:induction false} SkipMatchesRead(k: Kind, data: seq<u8>, pos: nat)
    requires pos <= |data| && k != END
    ensures D.ReadPayload(k, data, pos, Noop).Parsed? ==>
      Skip(k, data, pos, Noop) == D.Parsed((), D.ReadPayload(k, data, pos, Noop).pos, Noop)
    decreases |data| - pos, 2, 0
  {
    var r := D.ReadPayload(k, data, pos, Noop);
    if r.Parsed? {
      match k
      case STRING => StringSkipMatches(data, pos);
      case LIST => ListSkipMatches(data, pos);
      case COMPOUND => CompoundSkipMatches(data, pos);
      case BYTE_ARRAY => ArraySkipMatches(k, data, pos);
      case INT_ARRAY => ArraySkipMatches(k, data, pos);
      case LONG_ARRAY => ArraySkipMatches(k, data, pos);
      case _ => ScalarSkipMatches(k, data, pos);
    }
  }

  lemma ScalarSkipMatches(k: Kind, data: seq<u8>, pos: nat)
    requires pos <= |data| && D.IsNumber(k)
    ensures D.ReadNumber(k, data, pos, Noop).Parsed? ==>
      SkipScalar(k, data, pos, Noop) == D.Parsed((), D.ReadNumber(k, data, pos, Noop).pos, Noop)
  {
    assert D.Charge(Noop, D.OBJECT_HEADER_BYTES + D.NumberWidth(k)) == Ok(Noop);
  }

  lemma StringSkipMatches(data: seq<u8>, pos: nat)
    requires pos <= |data|
    ensures D.ReadStringTag(data, pos, Noop).Parsed? ==>
      SkipString(data, pos, Noop) == D.Parsed((), D.ReadStringTag(data, pos, Noop).pos, Noop)
  {
    var r := D.ReadStringTag(data, pos, Noop);
    if r.Parsed? {
      var u := D.ReadUtf(data, pos, Noop);
      assert D.Charge(Noop, D.STRING_COST) == Ok(Noop);
      D.ReadUtfFrame(data, pos, Noop);
      assert u.Parsed? && u.pos == pos + 2 + UnsignedShortOf(data[pos..pos + 2]);
      var n := ReadUnsignedShort(data, pos, Noop);
      assert n.Parsed? && n.value == UnsignedShortOf(data[pos..pos + 2]);
      assert D.Charge(Noop, 2 * n.value) == Ok(Noop);
    }
  }

  lemma ArraySkipMatches(k: Kind, data: seq<u8>, pos: nat)
    requires pos <= |data| && D.IsArray(k)
    ensures D.ReadArray(k, data, pos, Noop).Parsed? ==>
      SkipArray(k, data, pos, Noop) == D.Parsed((), D.ReadArray(k, data, pos, Noop).pos, Noop)
  {
    var r := D.ReadArray(k, data, pos, Noop);
    if r.Parsed? {
      var h := D.ReadArrayHeader(k, data, pos, Noop);
      assert D.Charge(Noop, D.ARRAY_COST) == Ok(Noop);
      assert h.Parsed? && h.pos == pos + 4;
      var length := IntOf(data[pos..pos + 4]);
      assert h.value == length;
      assert D.Charge(Noop, D.ArrayBytes(k, length)) == Ok(Noop);
    }
  }

  lemma {:induction false} ListSkipMatches(data: seq<u8>, pos: nat)
    requires pos <= |data|
    ensures D.ReadList(data, pos, Noop).Parsed? ==>
      SkipList(data, pos, Noop) == D.Parsed((), D.ReadList(data, pos, Noop).pos, Noop)
    decreases |data| - pos, 1, 0
  {
    var r := D.ReadListBody(data, pos, Noop);
    if r.Parsed? {
      assert D.Charge(Noop, D.LIST_COST) == Ok(Noop);
      var t := D.ReadTagType(data, pos, Noop);
      assert t.Parsed? && t.pos == pos + 1;
      var size := IntOf(data[pos + 1..pos + 5]);
      assert D.Charge(Noop, D.ListRefCharge(size)) == Ok(Noop);
      assert size >= 0 && (t.value != END || size == 0);
      ItemsSkipMatch(t.value, size, [], data, pos + 5);
      assert SkipListBody(data, pos, Noop) == D.Parsed((), r.pos, Noop);
    }
  }

  lemma {:induction false} ItemsSkipMatch(k: Kind, n: nat, acc: seq<Tag>, data: seq<u8>, pos: nat)
    requires pos <= |data| && (k != END || n == 0)
    ensures D.ReadElems(k, n, acc, data, pos, Noop).Parsed? ==>
      SkipItems(k, n, data, pos, Noop) == D.Parsed((), D.ReadElems(k, n, acc, data, pos, Noop).pos, Noop)
    decreases |data| - pos, 3, n
  {
    if n > 0 {
      var first := D.ReadPayload(k, data, pos, Noop);
      if first.Parsed? {
        SkipMatchesRead(k, data, pos);
        ItemsSkipMatch(k, n - 1, acc + [first.value], data, first.pos);
      }
    }
  }

  lemma {:induction false} CompoundSkipMatches(data: seq<u8>, pos: nat)
    requires pos <= |data|
    ensures D.ReadCompound(data, pos, Noop).Parsed? ==>
      SkipCompound(data, pos, Noop) == D.Parsed((), D.ReadCompound(data, pos, Noop).pos, Noop)
    decreases |data| - pos, 1, 0
  {
    assert D.Charge(Noop, D.COMPOUND_COST) == Ok(Noop);
    EntriesSkipMatch([], {}, data, pos);
  }

  lemma {:induction false} EntriesSkipMatch(acc: seq<Entry>, names: set<JString>, data: seq<u8>, pos: nat)
    requires pos <= |data|
    ensures D.ReadEntries(acc, data, pos, Noop).Parsed? ==>
      SkipEntries(names, data, pos, Noop) == D.Parsed((), D.ReadEntries(acc, data, pos, Noop).pos, Noop)
    decreases |data| - pos, 0, 0
  {
    var r := D.ReadEntries(acc, data, pos, Noop);
    var t := D.ReadTagType(data, pos, Noop);
    if r.Parsed? && t.Parsed? && t.value != END {
      var k := t.value;
      var e := D.ReadEntry(k, data, pos + 1, Noop);
      assert e.Parsed?;
      var s := D.ReadString(data, pos + 1, Noop);
      assert s.Parsed?;
      var v := D.ReadPayload(k, data, s.pos, Noop);
      assert v.Parsed? && e.pos == v.pos;
      SkipMatchesRead(k, data, s.pos);
      assert NameCharge(names, s.value, Noop) == Ok(Noop);
      assert D.EntryCharge(acc, e.value.name, Noop) == Ok(Noop);
      EntriesSkipMatch(SetTag(acc, e.value.name, e.value.tag), names + {s.value}, data, v.pos);
    }
  }
}
