/**
 * The eager NBT codec of `DefaultNBTSerializer`, as functions over a byte
 * string `data` read from position `pos` with a limiter budget.
 *
 * Every reader returns either the value read with the new position and
 * budget, or the error it throws with the budget at that moment (where the
 * stream stands after an error is not specified).
 */
module DefaultNbtSerializer {
  import opened Wrappers
  import opened JavaInts
  import opened ModifiedUtf8
  import opened NbtLimiter
  import opened NbtTypes

  const OBJECT_HEADER_BYTES: int := 8
  const ARRAY_HEADER_BYTES: int := 12
  const OBJECT_REF_BYTES: int := 4
  const STRING_SIZE_BYTES: int := 28

  /** Arrays of this many elements or more are refused before anything is allocated. */
  const ARRAY_LENGTH_LIMIT: int := TWO_24

  /** Header charge of every array reader: object header, array header and the length. */
  const ARRAY_COST: int := OBJECT_HEADER_BYTES + ARRAY_HEADER_BYTES + 4
  /** Charge of a STRING tag before its characters. */
  const STRING_COST: int := OBJECT_HEADER_BYTES + STRING_SIZE_BYTES
  /** A list tag and its backing `ArrayList`. */
  const LIST_COST: int := OBJECT_HEADER_BYTES + OBJECT_REF_BYTES + OBJECT_HEADER_BYTES + ARRAY_HEADER_BYTES + 4
  /** A compound tag and its backing `HashMap`. */
  const COMPOUND_COST: int := OBJECT_HEADER_BYTES + OBJECT_REF_BYTES + OBJECT_HEADER_BYTES + ARRAY_HEADER_BYTES + 4 + 4 + 4 + 4
  /** One new map entry of a compound. */
  const ENTRY_COST: int := 12 + OBJECT_HEADER_BYTES + 4 + OBJECT_REF_BYTES + OBJECT_REF_BYTES + OBJECT_REF_BYTES

  /** The six fixed-width kinds. */
  predicate IsNumber(k: Kind)
  {
    k == BYTE || k == SHORT || k == INT || k == LONG || k == FLOAT || k == DOUBLE
  }

  /** Bytes a fixed-width kind occupies on the wire. */
  function NumberWidth(k: Kind): (w: nat)
    requires IsNumber(k)
    ensures w == 1 || w == 2 || w == 4 || w == 8
  {
    match k
    case BYTE => 1
    case SHORT => 2
    case INT => 4
    case FLOAT => 4
    case LONG => 8
    case DOUBLE => 8
  }

  /** What a fixed-width reader charges; SHORT charges `Short.SIZE`, which is in bits. */
  function NumberCost(k: Kind): int
    requires IsNumber(k)
  {
    match k
    case BYTE => OBJECT_HEADER_BYTES + 1
    case SHORT => OBJECT_HEADER_BYTES + 16
    case INT => OBJECT_HEADER_BYTES + 4
    case FLOAT => OBJECT_HEADER_BYTES + 4
    case LONG => OBJECT_HEADER_BYTES + 8
    case DOUBLE => OBJECT_HEADER_BYTES + 8
  }

  predicate IsArray(k: Kind)
  {
    k == BYTE_ARRAY || k == INT_ARRAY || k == LONG_ARRAY
  }

  /** Bytes taken by `n` elements of an array kind: `Byte.BYTES * n`, `n * Integer.BYTES`, `n * Long.BYTES`. */
  function ArrayBytes(k: Kind, n: int): int
    requires IsArray(k)
  {
    match k
    case BYTE_ARRAY => n
    case INT_ARRAY => 4 * n
    case LONG_ARRAY => 8 * n
  }

  /** A reader's outcome. */
  datatype Parsed<+T> =
    | Parsed(value: T, pos: nat, budget: Budget)
    | Failed(error: Error, budget: Budget)

  /**
   * `after` is a later state of the limiter that was `before`: the same
   * limiter, no fewer bytes charged, and, from a valid state, a valid state
   * at the same depth.
   */
  predicate Follows(before: Budget, after: Budget)
  {
    before.SameLimiter(after)
    && (before.Bounded? ==> before.bytes <= after.bytes)
    && (before.Valid() ==> after.Valid() && (before.Bounded? ==> after.depth == before.depth))
  }

  /** `limiter.increment(amount)` with the limiter's error wrapped. */
  function Charge(b: Budget, amount: int): (r: Result<Budget, Error>)
    ensures r.Ok? <==> b.Increment(amount).Ok?
    ensures r.Ok? ==> r.value == b.Increment(amount).value && Follows(b, r.value)
    ensures r.Err? ==> r.error == Limit(b.Increment(amount).error)
  {
    match b.Increment(amount)
    case Ok(b1) => Ok(b1)
    case Err(e) => Err(Limit(e))
  }

  /** The type reader: one signed byte, looked up among the registered ids. */
  function ReadTagType(data: seq<u8>, pos: nat, b: Budget): (r: Parsed<Kind>)
    ensures r.budget == b
    ensures r.Parsed? <==> pos < |data| && KindOf(data[pos]).Some?
    ensures r.Parsed? ==> r.pos == pos + 1 && Id(r.value) == data[pos]
  {
    if pos >= |data| then Failed(EndOfStream, b)
    else match KindOf(ToByte(data[pos]))
      case None => Failed(UnknownTagType(ToByte(data[pos])), b)
      case Some(k) => Parsed(k, pos + 1, b)
  }

  /** `DataInput.readUTF`: an unsigned 16-bit byte count, then that many bytes of modified UTF-8. */
  function ReadUtf(data: seq<u8>, pos: nat, b: Budget): (r: Parsed<JString>)
    ensures r.budget == b
    ensures r.Parsed? ==> pos + 2 <= r.pos <= |data|
  {
    if pos + 2 > |data| then Failed(EndOfStream, b)
    else
      var n := UnsignedShortOf(data[pos..pos + 2]);
      if pos + 2 + n > |data| then Failed(EndOfStream, b)
      else match Decode(data[pos + 2..pos + 2 + n])
        case None => Failed(MalformedUtf, b)
        case Some(s) => Parsed(s, pos + 2 + n, b)
  }

  /** `readString`, used for compound names: read, then charge `28 + 2 * length`. */
  function ReadString(data: seq<u8>, pos: nat, b: Budget): (r: Parsed<JString>)
    ensures Follows(b, r.budget)
    ensures r.Parsed? ==> pos + 2 <= r.pos <= |data|
  {
    match ReadUtf(data, pos, b)
    case Failed(e, b1) => Failed(e, b1)
    case Parsed(s, p, _) =>
      match Charge(b, STRING_SIZE_BYTES + 2 * |s|)
      case Err(e) => Failed(e, b)
      case Ok(b1) => Parsed(s, p, b1)
  }

  /** Charge `cost`, then read exactly `width` bytes. */
  function ReadFixed(data: seq<u8>, pos: nat, b: Budget, cost: int, width: nat): (r: Parsed<seq<u8>>)
    ensures Follows(b, r.budget)
    ensures r.Parsed? <==> b.Increment(cost).Ok? && pos + width <= |data|
    ensures r.Parsed? ==> (r.value == data[pos..pos + width] && r.pos == pos + width
      && r.budget == b.Increment(cost).value)
  {
    match Charge(b, cost)
    case Err(e) => Failed(e, b)
    case Ok(b1) =>
      if pos + width > |data| then Failed(EndOfStream, b1)
      else Parsed(data[pos..pos + width], pos + width, b1)
  }

  /** The tag a fixed-width reader builds from its bytes; floats and doubles keep their raw bits. */
  function NumberTag(k: Kind, bs: seq<u8>): (t: Tag)
    requires IsNumber(k) && |bs| == NumberWidth(k)
    ensures t.Kind() == k
  {
    match k
    case BYTE => Byte(ToByte(bs[0]))
    case SHORT => Short(ShortOf(bs))
    case INT => Int(IntOf(bs))
    case FLOAT => Float(FromBigEndian(bs))
    case LONG => Long(LongOf(bs))
    case DOUBLE => Double(FromBigEndian(bs))
  }

  /** The BYTE, SHORT, INT, LONG, FLOAT and DOUBLE readers. */
  function ReadNumber(k: Kind, data: seq<u8>, pos: nat, b: Budget): (r: Parsed<Tag>)
    requires IsNumber(k)
    ensures Follows(b, r.budget)
    ensures r.Parsed? <==> b.Increment(NumberCost(k)).Ok? && pos + NumberWidth(k) <= |data|
    ensures r.Parsed? ==> r.pos == pos + NumberWidth(k) && r.value.Kind() == k
  {
    match ReadFixed(data, pos, b, NumberCost(k), NumberWidth(k))
    case Failed(e, b1) => Failed(e, b1)
    case Parsed(bs, p, b1) => Parsed(NumberTag(k, bs), p, b1)
  }

  /** The STRING reader: charge 36, read the string, charge two bytes per character. */
  function ReadStringTag(data: seq<u8>, pos: nat, b: Budget): (r: Parsed<Tag>)
    ensures Follows(b, r.budget)
    ensures r.Parsed? ==> pos + 2 <= r.pos <= |data| && r.value.String?
  {
    match Charge(b, STRING_COST)
    case Err(e) => Failed(e, b)
    case Ok(b1) =>
      match ReadUtf(data, pos, b1)
      case Failed(e, b2) => Failed(e, b2)
      case Parsed(s, p, _) =>
        match Charge(b1, 2 * |s|)
        case Err(e) => Failed(e, b1)
        case Ok(b2) => Parsed(String(s), p, b2)
  }

  /**
   * The common head of the three array readers: charge the header, read the
   * length, refuse 2^24 or more, charge the elements' bytes (in 32-bit
   * arithmetic), check that many bytes are readable, then allocate. The
   * result is the length, with the position of the first element.
   */
  function ReadArrayHeader(k: Kind, data: seq<u8>, pos: nat, b: Budget): (r: Parsed<nat>)
    requires IsArray(k)
    ensures Follows(b, r.budget)
    ensures r.Parsed? ==> r.pos == pos + 4 <= |data|
  {
    match Charge(b, ARRAY_COST)
    case Err(e) => Failed(e, b)
    case Ok(b1) =>
      if pos + 4 > |data| then Failed(EndOfStream, b1)
      else
        var length := IntOf(data[pos..pos + 4]);
        if length >= ARRAY_LENGTH_LIMIT then Failed(ArrayTooLarge(length), b1)
        else
          IntOfRange(data[pos..pos + 4]);
          var amount := Wrap32(ArrayBytes(k, length));
          match Charge(b1, amount)
          case Err(e) => Failed(e, b1)
          case Ok(b2) =>
            match b2.CheckReadability(amount, |data| - (pos + 4))
            case Fail(e) => Failed(Limit(e), b2)
            case Pass =>
              if length < 0 then Failed(NegativeArraySize(length), b2)
              else Parsed(length, pos + 4, b2)
  }

  /** Bytes one element of an array kind takes. */
  function ElementWidth(k: Kind): (w: nat)
    requires IsArray(k)
    ensures w == ArrayBytes(k, 1) && w > 0
  {
    match k
    case BYTE_ARRAY => 1
    case INT_ARRAY => 4
    case LONG_ARRAY => 8
  }

  /** The element of an array of kind `k` that starts at `p`: `readByte`, `readInt` or `readLong`. */
  function Element(k: Kind, data: seq<u8>, p: nat): int
    requires IsArray(k) && p + ElementWidth(k) <= |data|
  {
    match k
    case BYTE_ARRAY => ToByte(data[p])
    case INT_ARRAY => IntOf(data[p..p + 4])
    case LONG_ARRAY => LongOf(data[p..p + 8])
  }

  /** The `n` elements the array reader for `k` reads in turn from `p` on. */
  function Elements(k: Kind, data: seq<u8>, p: nat, n: nat): (r: seq<int>)
    requires IsArray(k) && p + ArrayBytes(k, n) <= |data|
    ensures |r| == n
    decreases n
  {
    if n == 0 then [] else [Element(k, data, p)] + Elements(k, data, p + ElementWidth(k), n - 1)
  }

  /** The array tag of kind `k` holding `a`. */
  function ArrayTag(k: Kind, a: seq<int>): (t: Tag)
    requires IsArray(k)
    ensures t.Kind() == k
  {
    match k
    case BYTE_ARRAY => ByteArray(a)
    case INT_ARRAY => IntArray(a)
    case LONG_ARRAY => LongArray(a)
  }

  /** The BYTE_ARRAY, INT_ARRAY and LONG_ARRAY readers. */
  function ReadArray(k: Kind, data: seq<u8>, pos: nat, b: Budget): (r: Parsed<Tag>)
    requires IsArray(k)
    ensures Follows(b, r.budget)
    ensures r.Parsed? ==> pos + 4 <= r.pos <= |data| && r.value.Kind() == k
  {
    match ReadArrayHeader(k, data, pos, b)
    case Failed(e, b1) => Failed(e, b1)
    case Parsed(n, p, b1) =>
      if p + ArrayBytes(k, n) > |data| then Failed(EndOfStream, b1)
      else Parsed(ArrayTag(k, Elements(k, data, p, n)), p + ArrayBytes(k, n), b1)
  }

  /** The `finally { limiter.exitDepth(); }` around the LIST and COMPOUND readers. */
  function ExitAfter<T>(r: Parsed<T>): (r': Parsed<T>)
  {
    match r.budget.ExitDepth()
    case Err(e) => Failed(Limit(e), r.budget)
    case Ok(b) => r.(budget := b)
  }

  /** The reader registered for kind `k`. */
  function ReadPayload(k: Kind, data: seq<u8>, pos: nat, b: Budget): (r: Parsed<Tag>)
    requires pos <= |data|
    decreases |data| - pos, 4, 0
    ensures Follows(b, r.budget)
    ensures r.Parsed? ==> pos <= r.pos <= |data| && r.value.Kind() == k
  {
    match k
    case END =>
      (match Charge(b, OBJECT_HEADER_BYTES)
       case Err(e) => Failed(e, b)
       case Ok(b1) => Parsed(End, pos, b1))
    case STRING => ReadStringTag(data, pos, b)
    case LIST => ReadList(data, pos, b)
    case COMPOUND => ReadCompound(data, pos, b)
    case BYTE_ARRAY => ReadArray(k, data, pos, b)
    case INT_ARRAY => ReadArray(k, data, pos, b)
    case LONG_ARRAY => ReadArray(k, data, pos, b)
    case _ => ReadNumber(k, data, pos, b)
  }

  /** The LIST reader: one level deeper for the duration of the body. */
  function ReadList(data: seq<u8>, pos: nat, b: Budget): (r: Parsed<Tag>)
    requires pos <= |data|
    decreases |data| - pos, 3, 0
    ensures Follows(b, r.budget)
    ensures r.Parsed? ==> pos < r.pos <= |data| && r.value.List?
  {
    match b.EnterDepth()
    case Err(e) => Failed(Limit(e), b)
    case Ok(b1) => ExitAfter(ReadListBody(data, pos, b1))
  }

  /**
   * The charge for the list's element references, `OBJECT_REF_BYTES * size`,
   * computed without overflow (see `ListRefChargeAsWritten`).
   */
  function ListRefCharge(size: int): int
  {
    OBJECT_REF_BYTES * size
  }

  /**
   * The charge as the source computes it: `OBJECT_REF_BYTES * size` in
   * 32-bit arithmetic, which wraps for sizes of 2^29 and more.
   */
  function ListRefChargeAsWritten(size: int32): (r: int32)
    ensures 0 <= size < 0x2000_0000 ==> r == ListRefCharge(size) && r >= 0
    ensures (r - ListRefCharge(size)) % TWO_32 == 0
  {
    Wrap32(OBJECT_REF_BYTES * size)
  }

  /**
   * A list announcing 2^30 + 1 elements is charged 4 bytes as written, which
   * a fresh default limiter accepts; the intended charge is refused.
   */
  lemma ListChargeWraps()
    ensures ListRefChargeAsWritten(0x4000_0001) == 4
    ensures ForBuffer(DEFAULT_MAX_SIZE, DEFAULT_MAX_DEPTH).Increment(ListRefChargeAsWritten(0x4000_0001)).Ok?
    ensures ForBuffer(DEFAULT_MAX_SIZE, DEFAULT_MAX_DEPTH).Increment(ListRefCharge(0x4000_0001)).Err?
  {
    assert OBJECT_REF_BYTES * 0x4000_0001 == TWO_32 + 4;
  }

  /**
   * With the unbounded charge, a list accepted under a bounded limiter has at
   * most a quarter of the byte ceiling in elements.
   */
  lemma ListSizeWithinBudget(data: seq<u8>, pos: nat, b: Budget)
    requires pos <= |data| && b.Bounded? && b.Valid()
    ensures ReadListBody(data, pos, b).Parsed? ==>
      OBJECT_REF_BYTES * |ReadListBody(data, pos, b).value.items| <= b.maxBytes
  {
    var r := ReadListBody(data, pos, b);
    if r.Parsed? {
      ListBodyShape(data, pos, b);
      var b1 := Charge(b, LIST_COST).value;
      var size := IntOf(data[pos + 1..pos + 5]);
      assert ReadTagType(data, pos, b1).pos == pos + 1;
      assert Charge(b1, ListRefCharge(size)).Ok?;
    }
  }

  /**
   * The body of the LIST reader: element kind, size, the END-list guard, the
   * reference charge, then `size` elements of that kind.
   */
  function ReadListBody(data: seq<u8>, pos: nat, b: Budget): (r: Parsed<Tag>)
    requires pos <= |data|
    decreases |data| - pos, 2, 0
    ensures Follows(b, r.budget)
    ensures r.Parsed? ==> pos + 5 <= r.pos <= |data| && r.value.List?
  {
    match Charge(b, LIST_COST)
    case Err(e) => Failed(e, b)
    case Ok(b1) =>
      match ReadTagType(data, pos, b1)
      case Failed(e, b2) => Failed(e, b2)
      case Parsed(k, p, _) =>
        if p + 4 > |data| then Failed(EndOfStream, b1)
        else
          var size := IntOf(data[p..p + 4]);
          if k == END && size > 0 then Failed(MissingListType, b1)
          else
            match Charge(b1, ListRefCharge(size))
            case Err(e) => Failed(e, b1)
            case Ok(b2) =>
              if size < 0 then Failed(NegativeListSize(size), b2)
              else
                match ReadElems(k, size, [], data, p + 4, b2)
                case Failed(e, b3) => Failed(e, b3)
                case Parsed(items, q, b3) => Parsed(List(k, items), q, b3)
  }

  /** The list reader's loop: `n` more elements of kind `k`, appended to `acc`. */
  function ReadElems(k: Kind, n: nat, acc: seq<Tag>, data: seq<u8>, pos: nat, b: Budget): (r: Parsed<seq<Tag>>)
    requires pos <= |data|
    decreases |data| - pos, 5, n
    ensures Follows(b, r.budget)
    ensures r.Parsed? ==> pos <= r.pos <= |data|
  {
    if n == 0 then Parsed(acc, pos, b)
    else
      match ReadPayload(k, data, pos, b)
      case Failed(e, b1) => Failed(e, b1)
      case Parsed(t, p, b1) => ReadElems(k, n - 1, acc + [t], data, p, b1)
  }

  /** The COMPOUND reader: one level deeper for the duration of the body. */
  function ReadCompound(data: seq<u8>, pos: nat, b: Budget): (r: Parsed<Tag>)
    requires pos <= |data|
    decreases |data| - pos, 3, 0
    ensures Follows(b, r.budget)
    ensures r.Parsed? ==> pos < r.pos <= |data| && r.value.Compound?
  {
    match b.EnterDepth()
    case Err(e) => Failed(Limit(e), b)
    case Ok(b1) => ExitAfter(ReadCompoundBody(data, pos, b1))
  }

  /** The body of the COMPOUND reader: the map's charge, then entries up to END. */
  function ReadCompoundBody(data: seq<u8>, pos: nat, b: Budget): (r: Parsed<Tag>)
    requires pos <= |data|
    decreases |data| - pos, 2, 0
    ensures Follows(b, r.budget)
    ensures r.Parsed? ==> pos < r.pos <= |data| && r.value.Compound?
  {
    match Charge(b, COMPOUND_COST)
    case Err(e) => Failed(e, b)
    case Ok(b1) =>
      match ReadEntries([], data, pos, b1)
      case Failed(e, b2) => Failed(e, b2)
      case Parsed(es, p, b2) => Parsed(Compound(es), p, b2)
  }

  /**
   * The compound reader's loop: read a type; on END stop; otherwise read the
   * name and the value, charge `ENTRY_COST` only if the name is new, and set
   * the entry (the last value under a name wins).
   */
  function ReadEntries(acc: seq<Entry>, data: seq<u8>, pos: nat, b: Budget): (r: Parsed<seq<Entry>>)
    requires pos <= |data|
    decreases |data| - pos, 1, 0
    ensures Follows(b, r.budget)
    ensures r.Parsed? ==> pos < r.pos <= |data|
  {
    match ReadTagType(data, pos, b)
    case Failed(e, b1) => Failed(e, b1)
    case Parsed(k, p, _) =>
      if k == END then Parsed(acc, p, b)
      else
        match ReadEntry(k, data, p, b)
        case Failed(e, b1) => Failed(e, b1)
        case Parsed(e, q, b1) =>
          match EntryCharge(acc, e.name, b1)
          case Err(err) => Failed(err, b1)
          case Ok(b2) => ReadEntries(SetTag(acc, e.name, e.tag), data, q, b2)
  }

  /** One entry of a compound after its type: the name, then the value of kind `k`. */
  function ReadEntry(k: Kind, data: seq<u8>, pos: nat, b: Budget): (r: Parsed<Entry>)
    requires pos <= |data|
    decreases |data| - pos, 0, 0
    ensures Follows(b, r.budget)
    ensures r.Parsed? ==> pos + 2 <= r.pos <= |data| && r.value.tag.Kind() == k
  {
    match ReadString(data, pos, b)
    case Failed(e, b1) => Failed(e, b1)
    case Parsed(name, q, b1) =>
      match ReadPayload(k, data, q, b1)
      case Failed(e, b2) => Failed(e, b2)
      case Parsed(t, q2, b2) => Parsed(Entry(name, t), q2, b2)
  }

  /** `ENTRY_COST` is charged only for a name the compound does not hold yet. */
  function EntryCharge(acc: seq<Entry>, name: JString, b: Budget): (r: Result<Budget, Error>)
    ensures HasName(acc, name) ==> r == Ok(b)
    ensures r.Ok? ==> Follows(b, r.value)
  {
    if HasName(acc, name) then Ok(b) else Charge(b, ENTRY_COST)
  }

  /** No entry of a compound holds an END tag. */
  predicate NoEndValues(entries: seq<Entry>)
  {
    forall i :: 0 <= i < |entries| ==> entries[i].tag.Kind() != END
  }

  /**
   * The compound reader builds a map: its names are distinct (a repeated
   * name overwrites the earlier value) and it never stores an END tag (END
   * ends the loop instead).
   */
  lemma CompoundIsMap(data: seq<u8>, pos: nat, b: Budget)
    requires pos <= |data|
    ensures ReadCompound(data, pos, b).Parsed? ==>
      DistinctNames(ReadCompound(data, pos, b).value.entries) && NoEndValues(ReadCompound(data, pos, b).value.entries)
  {
    if b.EnterDepth().Ok? {
      var b1 := b.EnterDepth().value;
      match Charge(b1, COMPOUND_COST)
      case Err(_) =>
      case Ok(b2) =>
        EntriesAreMap([], data, pos, b2);
    }
  }

  lemma {:induction false} EntriesAreMap(acc: seq<Entry>, data: seq<u8>, pos: nat, b: Budget)
    requires pos <= |data| && DistinctNames(acc) && NoEndValues(acc)
    ensures ReadEntries(acc, data, pos, b).Parsed? ==>
      DistinctNames(ReadEntries(acc, data, pos, b).value) && NoEndValues(ReadEntries(acc, data, pos, b).value)
    decreases |data| - pos
  {
    match ReadTagType(data, pos, b)
    case Failed(_, _) =>
    case Parsed(k, p, _) =>
      if k != END {
        match ReadEntry(k, data, p, b)
        case Failed(_, _) =>
        case Parsed(e, q, b1) =>
          match EntryCharge(acc, e.name, b1)
          case Err(_) =>
          case Ok(b2) =>
            var acc' := SetTag(acc, e.name, e.tag);
            SetTagTags(acc, e.name, e.tag);
            SetTagNames(acc, e.name, e.tag);
            forall i | 0 <= i < |acc'| ensures acc'[i].tag.Kind() != END {
              if acc'[i].tag != e.tag {
                var j :| 0 <= j < |acc| && acc[j].tag == acc'[i].tag;
              }
            }
            EntriesAreMap(acc', data, q, b2);
      }
  }

  /** Every tag after `SetTag` is either the new one or one that was there. */
  lemma {:induction false} SetTagTags(entries: seq<Entry>, name: JString, tag: Tag)
    ensures forall i :: 0 <= i < |SetTag(entries, name, tag)| ==>
      SetTag(entries, name, tag)[i].tag == tag
      || exists j :: 0 <= j < |entries| && entries[j].tag == SetTag(entries, name, tag)[i].tag
  {
    if entries != [] && entries[0].name != name {
      SetTagTags(entries[1..], name, tag);
      var r := SetTag(entries, name, tag);
      var rest := SetTag(entries[1..], name, tag);
      assert r == [entries[0]] + rest;
      forall i | 0 <= i < |r|
        ensures r[i].tag == tag || exists j :: 0 <= j < |entries| && entries[j].tag == r[i].tag
      {
        if i > 0 && r[i].tag != tag {
          assert r[i] == rest[i - 1];
          var j :| 0 <= j < |entries[1..]| && entries[1..][j].tag == rest[i - 1].tag;
          assert entries[j + 1].tag == r[i].tag;
        }
      }
    } else if entries != [] {
      var r := SetTag(entries, name, tag);
      forall i | 0 <= i < |r|
        ensures r[i].tag == tag || exists j :: 0 <= j < |entries| && entries[j].tag == r[i].tag
      {
        if i > 0 {
          assert r[i].tag == entries[i].tag;
        }
      }
    }
  }

  /** `readUTF` succeeds exactly when the announced byte count is there and decodes; it then yields that decoding. */
  lemma ReadUtfFrame(data: seq<u8>, pos: nat, b: Budget)
    ensures ReadUtf(data, pos, b).Parsed? <==>
      pos + 2 <= |data| && pos + 2 + UnsignedShortOf(data[pos..pos + 2]) <= |data|
      && Decode(data[pos + 2..pos + 2 + UnsignedShortOf(data[pos..pos + 2])]).Some?
    ensures ReadUtf(data, pos, b).Parsed? ==>
      ReadUtf(data, pos, b).pos == pos + 2 + UnsignedShortOf(data[pos..pos + 2])
      && Some(ReadUtf(data, pos, b).value) == Decode(data[pos + 2..ReadUtf(data, pos, b).pos])
  {
    var r := ReadUtf(data, pos, b);
    if pos + 2 > |data| {
      assert r.Failed?;
    } else {
      var n := UnsignedShortOf(data[pos..pos + 2]);
      if pos + 2 + n > |data| {
        assert r.Failed?;
      } else {
        var d := Decode(data[pos + 2..pos + 2 + n]);
        if d.None? {
          assert r.Failed?;
        } else {
          assert r == Parsed(d.value, pos + 2 + n, b);
        }
      }
    }
  }

  /**
   * The array header: a length of 2^24 or more is refused right after the
   * header charge, before any element is charged or allocated; an accepted
   * length was charged at its element width and, under a buffer limiter,
   * found readable.
   */
  lemma ArrayHeaderGuards(k: Kind, data: seq<u8>, pos: nat, b: Budget)
    requires IsArray(k)
    ensures pos + 4 <= |data| && IntOf(data[pos..pos + 4]) >= ARRAY_LENGTH_LIMIT && b.Increment(ARRAY_COST).Ok? ==>
      ReadArrayHeader(k, data, pos, b) == Failed(ArrayTooLarge(IntOf(data[pos..pos + 4])), b.Increment(ARRAY_COST).value)
    ensures ReadArrayHeader(k, data, pos, b).Parsed? ==>
      var r := ReadArrayHeader(k, data, pos, b);
      r.value == IntOf(data[pos..pos + 4]) && r.value < ARRAY_LENGTH_LIMIT
      && b.Increment(ARRAY_COST).Ok? && b.Increment(ARRAY_COST).value.Increment(ArrayBytes(k, r.value)) == Ok(r.budget)
      && (b.Bounded? ==> ArrayBytes(k, r.value) <= |data| - r.pos)
  {
    if pos + 4 <= |data| {
      IntOfRange(data[pos..pos + 4]);
    }
  }

  /**
   * A list read from the wire has the element kind and the size its header
   * names, every element of that kind, and no elements when that kind is END.
   */
  lemma ListBodyShape(data: seq<u8>, pos: nat, b: Budget)
    requires pos <= |data|
    ensures ReadListBody(data, pos, b).Parsed? ==>
      var t := ReadListBody(data, pos, b).value;
      data[pos] == Id(t.elemKind) && |t.items| == IntOf(data[pos + 1..pos + 5])
      && !(t.elemKind == END && |t.items| > 0)
      && forall i :: 0 <= i < |t.items| ==> t.items[i].Kind() == t.elemKind
  {
    match Charge(b, LIST_COST)
    case Err(_) =>
    case Ok(b1) =>
      match ReadTagType(data, pos, b1)
      case Failed(_, _) =>
      case Parsed(k, p, _) =>
        if p + 4 <= |data| {
          var size := IntOf(data[p..p + 4]);
          if !(k == END && size > 0) && Charge(b1, ListRefCharge(size)).Ok? && size >= 0 {
            ElemsShape(k, size, [], data, p + 4, Charge(b1, ListRefCharge(size)).value);
          }
        }
  }

  /** The list reader's loop appends exactly `n` elements, all of kind `k`. */
  lemma {:induction false} ElemsShape(k: Kind, n: nat, acc: seq<Tag>, data: seq<u8>, pos: nat, b: Budget)
    requires pos <= |data|
    ensures ReadElems(k, n, acc, data, pos, b).Parsed? ==>
      var items := ReadElems(k, n, acc, data, pos, b).value;
      |items| == |acc| + n && items[..|acc|] == acc
      && forall i :: |acc| <= i < |items| ==> items[i].Kind() == k
    decreases n
  {
    if n > 0 {
      var first := ReadPayload(k, data, pos, b);
      if first.Parsed? {
        var t, p, b1 := first.value, first.pos, first.budget;
        ElemsShape(k, n - 1, acc + [t], data, p, b1);
        var r := ReadElems(k, n - 1, acc + [t], data, p, b1);
        assert ReadElems(k, n, acc, data, pos, b) == r;
        if r.Parsed? {
          assert r.value[..|acc|] == (acc + [t])[..|acc|];
        }
      }
    }
  }

  /**
   * A compound holding the name "a" twice, first with the byte 5 and then
   * with the byte 7: the last value wins, and the entry overhead is charged
   * once, for a total of 48 + (30 + 9 + 36) + (30 + 9) = 162 bytes.
   */
  lemma LastWriteWins(data: seq<u8>, maxBytes: int32, maxDepth: int32)
    requires data == [1, 0, 1, 97, 5, 1, 0, 1, 97, 7, 0] && 162 <= maxBytes && 1 <= maxDepth
    ensures ReadCompound(data, 0, ForBuffer(maxBytes, maxDepth))
      == Parsed(Compound([Entry([97], Byte(7))]), 11, Bounded(162, 0, maxBytes, maxDepth))
  {
    ExampleEntries(data, maxBytes, maxDepth);
    CompoundStepBounded(data, 0, Bounded(0, 0, maxBytes, maxDepth), Bounded(0, 1, maxBytes, maxDepth),
      Bounded(48, 1, maxBytes, maxDepth), [Entry([97], Byte(7))], 11, Bounded(162, 1, maxBytes, maxDepth),
      Bounded(162, 0, maxBytes, maxDepth));
  }

  lemma ExampleEntries(data: seq<u8>, maxBytes: int32, maxDepth: int32)
    requires data == [1, 0, 1, 97, 5, 1, 0, 1, 97, 7, 0] && 162 <= maxBytes
    ensures ReadEntries([], data, 0, Bounded(48, 1, maxBytes, maxDepth))
      == Parsed([Entry([97], Byte(7))], 11, Bounded(162, 1, maxBytes, maxDepth))
  {
    ExampleFirstEntry(data, maxBytes, maxDepth);
    ExampleSecondEntry(data, maxBytes, maxDepth);
  }

  /** The first entry of the example is new: it is charged 39 + 36 bytes. */
  lemma ExampleFirstEntry(data: seq<u8>, maxBytes: int32, maxDepth: int32)
    requires data == [1, 0, 1, 97, 5, 1, 0, 1, 97, 7, 0] && 162 <= maxBytes
    ensures ReadEntries([], data, 0, Bounded(48, 1, maxBytes, maxDepth))
      == ReadEntries([Entry([97], Byte(5))], data, 5, Bounded(123, 1, maxBytes, maxDepth))
  {
    ByteEntryAt(data, 1, 48, 1, maxBytes, maxDepth, 5);
    assert SetTag([], [97], Byte(5)) == [Entry([97], Byte(5))];
    EntriesStep([], data, 0, BYTE, Entry([97], Byte(5)), 5, Bounded(48, 1, maxBytes, maxDepth),
      Bounded(87, 1, maxBytes, maxDepth), Bounded(123, 1, maxBytes, maxDepth));
  }

  /** The second entry repeats the name: it replaces the first, is charged 39 bytes only, and END follows. */
  lemma ExampleSecondEntry(data: seq<u8>, maxBytes: int32, maxDepth: int32)
    requires data == [1, 0, 1, 97, 5, 1, 0, 1, 97, 7, 0] && 162 <= maxBytes
    ensures ReadEntries([Entry([97], Byte(5))], data, 5, Bounded(123, 1, maxBytes, maxDepth))
      == Parsed([Entry([97], Byte(7))], 11, Bounded(162, 1, maxBytes, maxDepth))
  {
    var first, last := [Entry([97], Byte(5))], [Entry([97], Byte(7))];
    ByteEntryAt(data, 6, 123, 1, maxBytes, maxDepth, 7);
    assert first[0].name == [97];
    assert SetTag(first, [97], Byte(7)) == last;
    EntriesStep(first, data, 5, BYTE, Entry([97], Byte(7)), 10, Bounded(123, 1, maxBytes, maxDepth),
      Bounded(162, 1, maxBytes, maxDepth), Bounded(162, 1, maxBytes, maxDepth));
    EntriesEnd(last, data, 10, Bounded(162, 1, maxBytes, maxDepth));
  }

  /** The compound reader, given what its limiter calls and its loop return. */
  lemma CompoundStepBounded(data: seq<u8>, pos: nat, b: Budget, b1: Budget, b2: Budget, es: seq<Entry>, q: nat, b3: Budget, b4: Budget)
    requires pos <= |data| && b.EnterDepth() == Ok(b1) && b1.Increment(COMPOUND_COST) == Ok(b2)
    requires ReadEntries([], data, pos, b2) == Parsed(es, q, b3) && b3.ExitDepth() == Ok(b4)
    ensures ReadCompound(data, pos, b) == Parsed(Compound(es), q, b4)
  {
    assert ReadCompoundBody(data, pos, b1) == Parsed(Compound(es), q, b3);
  }

  /** The compound reader's loop stops at an END id. */
  lemma EntriesEnd(acc: seq<Entry>, data: seq<u8>, pos: nat, b: Budget)
    requires pos < |data| && data[pos] == Id(END)
    ensures ReadEntries(acc, data, pos, b) == Parsed(acc, pos + 1, b)
  {
  }

  /** One turn of the compound reader's loop, given what its reads return. */
  lemma EntriesStep(acc: seq<Entry>, data: seq<u8>, pos: nat, k: Kind, e: Entry, q: nat, b: Budget, b1: Budget, b2: Budget)
    requires pos < |data| && q <= |data| && k != END
    requires ReadTagType(data, pos, b) == Parsed(k, pos + 1, b)
    requires ReadEntry(k, data, pos + 1, b) == Parsed(e, q, b1)
    requires EntryCharge(acc, e.name, b1) == Ok(b2)
    ensures ReadEntries(acc, data, pos, b) == ReadEntries(SetTag(acc, e.name, e.tag), data, q, b2)
  {
    var t := ReadTagType(data, pos, b);
    assert t.Parsed? && t.value == k && t.pos == pos + 1;
    var x := ReadEntry(k, data, pos + 1, b);
    assert x.Parsed? && x.value == e && x.pos == q && x.budget == b1;
  }

  /** The entry body `"a" = (byte) v` of the example compound, read at `pos`: 30 bytes for the name, 9 for the byte. */
  lemma ByteEntryAt(data: seq<u8>, pos: nat, bytes: int32, depth: int32, maxBytes: int32, maxDepth: int32, v: u8)
    requires pos + 4 <= |data| && data[pos] == 0 && data[pos + 1] == 1 && data[pos + 2] == 97 && data[pos + 3] == v && v < 0x80
    requires 0 <= bytes && bytes + 39 <= maxBytes
    ensures ReadEntry(BYTE, data, pos, Bounded(bytes, depth, maxBytes, maxDepth))
      == Parsed(Entry([97], Byte(v)), pos + 4, Bounded(bytes + 39, depth, maxBytes, maxDepth))
  {
    var b := Bounded(bytes, depth, maxBytes, maxDepth);
    var b1 := Bounded(bytes + 30, depth, maxBytes, maxDepth);
    NameAt(data, pos, b);
    assert data[pos + 3..pos + 4] == [v];
    assert ReadString(data, pos, b) == Parsed([97], pos + 3, b1);
    assert ReadPayload(BYTE, data, pos + 3, b1) == Parsed(Byte(v), pos + 4, Bounded(bytes + 39, depth, maxBytes, maxDepth));
  }

  /** The name "a" framed at `pos` of the example compound. */
  lemma NameAt(data: seq<u8>, pos: nat, b: Budget)
    requires pos + 3 <= |data| && data[pos] == 0 && data[pos + 1] == 1 && data[pos + 2] == 97
    ensures ReadUtf(data, pos, b) == Parsed([97], pos + 3, b)
  {
    assert data[pos..pos + 2] == [0, 1];
    assert [0, 1][..1] == [0] && [0][..0] == [];
    assert UnsignedShortOf(data[pos..pos + 2]) == 1;
    assert data[pos + 2..pos + 3] == [97];
    assert [97][1..] == [] && [97] + [] == [97];
    assert Decode([97]) == Some([97]);
  }
}
