/**
 * The writers registered by `DefaultNBTSerializer`, as the bytes they emit
 * for a tag, and the round trip: the registered reader of a tag's kind reads
 * the bytes its writer emitted back into the same tag.
 */
module NbtEncoding {
  import opened Wrappers
  import opened JavaInts
  import opened ModifiedUtf8
  import opened NbtLimiter
  import opened NbtTypes
  import opened DefaultNbtSerializer
  import RL = ReaderLimits

  /** `writeUTF` of a string whose encoding fits the 16-bit count. */
  function Utf(s: JString): (r: seq<u8>)
    ensures |Encode(s)| <= MAX_UTF_LENGTH ==> WriteUtf(s) == Ok(r)
  {
    ShortBytes(|Encode(s)|) + Encode(s)
  }

  /** Every string of the tree, values and compound names alike, fits `writeUTF`'s count. */
  predicate Fits(t: Tag)
    decreases t
  {
    match t
    case String(s) => |Encode(s)| <= MAX_UTF_LENGTH
    case List(_, items) => forall i :: 0 <= i < |items| ==> Fits(items[i])
    case Compound(entries) =>
      forall i :: 0 <= i < |entries| ==> |Encode(entries[i].name)| <= MAX_UTF_LENGTH && Fits(entries[i].tag)
    case _ => true
  }

  /** The elements of an array of kind `k`, each big-endian in its kind's width, in order. */
  function Words(k: Kind, a: seq<int>): (r: seq<u8>)
    requires IsArray(k)
  {
    if a == [] then [] else BigEndian(a[0], ElementWidth(k)) + Words(k, a[1..])
  }

  /**
   * The bytes the writer of `t`'s kind emits (where `writeUTF` does not
   * throw, see `Fits`): numbers big-endian, floats and doubles through
   * `floatToIntBits`/`doubleToLongBits`, arrays and lists after their
   * length, a list after its element kind, and a compound as (kind, name,
   * payload) per entry followed by an END id.
   */
  function Payload(t: Tag): seq<u8>
    decreases t
  {
    match t
    case End => []
    case Byte(v) => [v % TWO_8]
    case Short(v) => ShortBytes(v)
    case Int(v) => IntBytes(v)
    case Long(v) => LongBytes(v)
    case Float(bits) => IntBytes(FloatToIntBits(bits))
    case Double(bits) => LongBytes(DoubleToLongBits(bits))
    case ByteArray(a) => IntBytes(|a|) + Words(BYTE_ARRAY, a)
    case String(s) => Utf(s)
    case List(k, items) => [Id(k)] + IntBytes(|items|) + ItemsBytes(items)
    case Compound(entries) => EntriesBytes(entries) + [Id(END)]
    case IntArray(a) => IntBytes(|a|) + Words(INT_ARRAY, a)
    case LongArray(a) => IntBytes(|a|) + Words(LONG_ARRAY, a)
  }

  /** The list writer's loop. */
  function ItemsBytes(items: seq<Tag>): seq<u8>
    decreases items
  {
    if items == [] then [] else Payload(items[0]) + ItemsBytes(items[1..])
  }

  /** The compound writer's loop: kind, name and payload of each entry, in the compound's order. */
  function EntriesBytes(entries: seq<Entry>): seq<u8>
    decreases entries
  {
    if entries == [] then []
    else [Id(entries[0].tag.Kind())] + Utf(entries[0].name) + Payload(entries[0].tag) + EntriesBytes(entries[1..])
  }

  /** The writer: it throws (`UTFDataFormatException`) exactly when some string does not fit. */
  function Write(t: Tag): (r: Result<seq<u8>, Error>)
    ensures r.Ok? <==> Fits(t)
    ensures r.Ok? ==> r.value == Payload(t)
  {
    if Fits(t) then Ok(Payload(t)) else Err(MalformedUtf)
  }

  /** `bs` sits in `data` at `pos`. */
  predicate At(data: seq<u8>, pos: nat, bs: seq<u8>)
  {
    pos + |bs| <= |data| && data[pos..pos + |bs|] == bs
  }

  lemma AtSplit(data: seq<u8>, pos: nat, x: seq<u8>, y: seq<u8>)
    requires At(data, pos, x + y)
    ensures At(data, pos, x) && At(data, pos + |x|, y)
  {
    assert data[pos..pos + |x|] == (x + y)[..|x|];
    assert data[pos + |x|..pos + |x| + |y|] == (x + y)[|x|..];
  }

  /** The words of `a` take `ArrayBytes(k, |a|)` bytes. */
  lemma {:induction false} WordsLength(k: Kind, a: seq<int>)
    requires IsArray(k)
    ensures |Words(k, a)| == ArrayBytes(k, |a|)
  {
    if a != [] {
      WordsLength(k, a[1..]);
    }
  }

  /** A value an array of kind `k` can hold. */
  predicate InRange(k: Kind, v: int)
    requires IsArray(k)
  {
    match k
    case BYTE_ARRAY => IsByte(v)
    case INT_ARRAY => IsInt(v)
    case LONG_ARRAY => IsLong(v)
  }

  /** One element written big-endian reads back as itself. */
  lemma ElementRoundTrip(k: Kind, v: int, data: seq<u8>, p: nat)
    requires IsArray(k) && InRange(k, v) && At(data, p, BigEndian(v, ElementWidth(k)))
    ensures p + ElementWidth(k) <= |data| && Element(k, data, p) == v
  {
    match k
    case BYTE_ARRAY =>
      assert data[p] == v % TWO_8;
    case INT_ARRAY =>
      IntRoundTrip(v);
    case LONG_ARRAY =>
      LongRoundTrip(v);
  }

  /** The array readers read back, in order, the elements the array writers emitted. */
  lemma {:induction false} ElementsRoundTrip(k: Kind, a: seq<int>, data: seq<u8>, p: nat)
    requires IsArray(k) && (forall i :: 0 <= i < |a| ==> InRange(k, a[i])) && At(data, p, Words(k, a))
    ensures p + ArrayBytes(k, |a|) <= |data| && Elements(k, data, p, |a|) == a
  {
    WordsLength(k, a);
    if a != [] {
      var w := ElementWidth(k);
      AtSplit(data, p, BigEndian(a[0], w), Words(k, a[1..]));
      ElementRoundTrip(k, a[0], data, p);
      ElementsRoundTrip(k, a[1..], data, p + w);
      assert a == [a[0]] + a[1..];
    }
  }

  /** `readUTF` reads back the string `writeUTF` framed, and charges nothing. */
  lemma UtfRoundTrip(s: JString, data: seq<u8>, pos: nat, b: Budget)
    requires |Encode(s)| <= MAX_UTF_LENGTH && At(data, pos, Utf(s))
    ensures ReadUtf(data, pos, b) == Parsed(s, pos + |Utf(s)|, b)
  {
    var e := Encode(s);
    AtSplit(data, pos, ShortBytes(|e|), e);
    UnsignedShortRoundTrip(|e|);
    RoundTrip(s);
  }

  /** The fixed-width readers read back what the fixed-width writers wrote. */
  lemma NumberRoundTrip(t: Tag, data: seq<u8>, pos: nat)
    requires WellFormed(t) && IsNumber(t.Kind()) && At(data, pos, Payload(t))
    ensures ReadPayload(t.Kind(), data, pos, Noop) == Parsed(t, pos + |Payload(t)|, Noop)
  {
    NumberTagRoundTrip(t);
    NumberStep(t.Kind(), data, pos, t);
  }

  /** The tag built from a number's bytes is the number written. */
  lemma NumberTagRoundTrip(t: Tag)
    requires WellFormed(t) && IsNumber(t.Kind())
    ensures |Payload(t)| == NumberWidth(t.Kind()) && NumberTag(t.Kind(), Payload(t)) == t
  {
    match t
    case Byte(v) =>
      ByteRoundTrip(v);
    case Short(v) =>
      ShortRoundTrip(v);
    case Int(v) =>
      IntRoundTrip(v);
    case Long(v) =>
      LongRoundTrip(v);
    case Float(bits) =>
      BitsRoundTrip(bits, 4);
    case Double(bits) =>
      BitsRoundTrip(bits, 8);
  }

  /** `writeByte` then `readByte`. */
  lemma ByteRoundTrip(v: int)
    requires IsByte(v)
    ensures ToByte(v % TWO_8) == v
  {
  }

  /** Raw bits written big-endian read back unchanged. */
  lemma BitsRoundTrip(bits: int, n: nat)
    requires n == 4 || n == 8
    requires 0 <= bits && (n == 4 ==> bits < TWO_32) && (n == 8 ==> bits < TWO_64)
    ensures FromBigEndian(BigEndian(bits, n)) == bits
  {
    BigEndianRoundTrip(bits, n);
    Pow256Values();
  }

  /** The array readers read back a length-prefixed array the array writers wrote. */
  lemma ArrayRoundTrip(t: Tag, data: seq<u8>, pos: nat)
    requires WellFormed(t) && IsArray(t.Kind()) && At(data, pos, Payload(t))
    ensures ReadPayload(t.Kind(), data, pos, Noop) == Parsed(t, pos + |Payload(t)|, Noop)
  {
    var k := t.Kind();
    var a := ArrayElements(t);
    ArrayParts(t);
    ArrayBodyRoundTrip(k, a, data, pos);
  }

  /** The elements of an array tag. */
  function ArrayElements(t: Tag): seq<int>
    requires IsArray(t.Kind())
  {
    match t
    case ByteArray(a) => a
    case IntArray(a) => a
    case LongArray(a) => a
  }

  lemma ArrayParts(t: Tag)
    requires WellFormed(t) && IsArray(t.Kind())
    ensures t == ArrayTag(t.Kind(), ArrayElements(t))
    ensures Payload(t) == IntBytes(|ArrayElements(t)|) + Words(t.Kind(), ArrayElements(t))
    ensures |ArrayElements(t)| < TWO_24
    ensures forall i :: 0 <= i < |ArrayElements(t)| ==> InRange(t.Kind(), ArrayElements(t)[i])
  {
  }

  lemma ArrayBodyRoundTrip(k: Kind, a: seq<int>, data: seq<u8>, pos: nat)
    requires IsArray(k) && |a| < TWO_24 && forall i :: 0 <= i < |a| ==> InRange(k, a[i])
    requires At(data, pos, IntBytes(|a|) + Words(k, a))
    ensures ReadPayload(k, data, pos, Noop) == Parsed(ArrayTag(k, a), pos + |IntBytes(|a|) + Words(k, a)|, Noop)
  {
    WordsLength(k, a);
    ArrayHeaderRoundTrip(k, a, data, pos);
    ElementsRoundTrip(k, a, data, pos + 4);
    ArrayStep(k, data, pos, |a|, a);
  }

  /** The array header reader reads back the length the array writers wrote, and the limit lets it through. */
  lemma ArrayHeaderRoundTrip(k: Kind, a: seq<int>, data: seq<u8>, pos: nat)
    requires IsArray(k) && |a| < TWO_24 && At(data, pos, IntBytes(|a|) + Words(k, a))
    ensures ReadArrayHeader(k, data, pos, Noop) == Parsed(|a|, pos + 4, Noop)
    ensures At(data, pos + 4, Words(k, a))
  {
    AtSplit(data, pos, IntBytes(|a|), Words(k, a));
    IntRoundTrip(|a|);
  }

  /**
   * The round trip of the whole codec: the reader registered for a
   * well-formed tag's kind, run without limits on the bytes its writer
   * emitted, gives back the same tag and stops right after those bytes.
   */
  lemma {:induction false} PayloadRoundTrip(t: Tag, data: seq<u8>, pos: nat)
    requires WellFormed(t) && At(data, pos, Payload(t))
    ensures ReadPayload(t.Kind(), data, pos, Noop) == Parsed(t, pos + |Payload(t)|, Noop)
    decreases t, 2
  {
    match t
    case End =>
    case String(s) =>
      UtfRoundTrip(s, data, pos, Noop);
      StringStep(data, pos, s, pos + |Payload(t)|);
    case List(k, items) =>
      ListRoundTrip(k, items, data, pos);
    case Compound(entries) =>
      CompoundRoundTrip(entries, data, pos);
    case ByteArray(_) =>
      ArrayRoundTrip(t, data, pos);
    case IntArray(_) =>
      ArrayRoundTrip(t, data, pos);
    case LongArray(_) =>
      ArrayRoundTrip(t, data, pos);
    case _ =>
      NumberRoundTrip(t, data, pos);
  }

  /**
   * The round trip under any limiter state: when the reader accepts the
   * bytes the writer emitted (the limiter may refuse them), it gives back the
   * same tag and stops right after those bytes.
   */
  lemma LimitedRoundTrip(t: Tag, data: seq<u8>, pos: nat, b: Budget)
    requires WellFormed(t) && At(data, pos, Payload(t))
    ensures ReadPayload(t.Kind(), data, pos, b).Parsed? ==>
      ReadPayload(t.Kind(), data, pos, b).value == t && ReadPayload(t.Kind(), data, pos, b).pos == pos + |Payload(t)|
  {
    PayloadRoundTrip(t, data, pos);
    RL.PayloadIgnoresLimiter(t.Kind(), data, pos, b);
  }

  lemma {:induction false} ListRoundTrip(k: Kind, items: seq<Tag>, data: seq<u8>, pos: nat)
    requires WellFormed(List(k, items)) && At(data, pos, Payload(List(k, items)))
    ensures ReadPayload(LIST, data, pos, Noop) == Parsed(List(k, items), pos + |Payload(List(k, items))|, Noop)
    decreases List(k, items), 1
  {
    ListHeaderRoundTrip(k, items, data, pos);
    ItemsRoundTrip(k, items, [], data, pos + 5);
    assert [] + items == items;
    ListStep(data, pos, k, items, pos + |Payload(List(k, items))|);
  }

  /** The element kind and the size of a list read back as written. */
  lemma ListHeaderRoundTrip(k: Kind, items: seq<Tag>, data: seq<u8>, pos: nat)
    requires |items| < TWO_31 && At(data, pos, Payload(List(k, items)))
    ensures pos + 5 <= |data| && ReadTagType(data, pos, Noop) == Parsed(k, pos + 1, Noop)
    ensures IntOf(data[pos + 1..pos + 5]) == |items|
    ensures At(data, pos + 5, ItemsBytes(items))
    ensures pos + |Payload(List(k, items))| == pos + 5 + |ItemsBytes(items)|
  {
    var head := [Id(k)] + IntBytes(|items|);
    assert Payload(List(k, items)) == head + ItemsBytes(items);
    AtSplit(data, pos, head, ItemsBytes(items));
    AtSplit(data, pos, [Id(k)], IntBytes(|items|));
    TagTypeRoundTrip(k, data, pos);
    IntRoundTrip(|items|);
  }

  /** The list reader's loop reads back, in order, the elements the list writer's loop wrote. */
  lemma {:induction false} ItemsRoundTrip(k: Kind, items: seq<Tag>, acc: seq<Tag>, data: seq<u8>, pos: nat)
    requires forall i :: 0 <= i < |items| ==> items[i].Kind() == k && WellFormed(items[i])
    requires At(data, pos, ItemsBytes(items))
    ensures ReadElems(k, |items|, acc, data, pos, Noop) == Parsed(acc + items, pos + |ItemsBytes(items)|, Noop)
    decreases items
  {
    if items == [] {
      assert acc + items == acc;
    } else {
      var t := items[0];
      var p := pos + |Payload(t)|;
      AtSplit(data, pos, Payload(t), ItemsBytes(items[1..]));
      PayloadRoundTrip(t, data, pos);
      ElemsStep(k, |items|, acc, data, pos, t, p);
      ItemsRoundTrip(k, items[1..], acc + [t], data, p);
      MoveHead(acc, items);
    }
  }

  lemma {:induction false} CompoundRoundTrip(entries: seq<Entry>, data: seq<u8>, pos: nat)
    requires WellFormed(Compound(entries)) && At(data, pos, Payload(Compound(entries)))
    ensures ReadPayload(COMPOUND, data, pos, Noop) == Parsed(Compound(entries), pos + |Payload(Compound(entries))|, Noop)
    decreases Compound(entries), 1
  {
    CompoundEntriesRoundTrip(entries, data, pos);
    CompoundStep(data, pos, entries, pos + |Payload(Compound(entries))|);
  }

  /** The compound reader's loop, started on an empty map, reads back all the entries of a compound. */
  lemma {:induction false} CompoundEntriesRoundTrip(entries: seq<Entry>, data: seq<u8>, pos: nat)
    requires WellFormed(Compound(entries)) && At(data, pos, Payload(Compound(entries)))
    ensures ReadEntries([], data, pos, Noop) == Parsed(entries, pos + |Payload(Compound(entries))|, Noop)
    decreases Compound(entries), 0
  {
    assert Payload(Compound(entries)) == EntriesBytes(entries) + [Id(END)];
    EntriesRoundTrip(entries, [], data, pos);
    EmptyPrefix(entries);
  }

  /**
   * The compound reader's loop reads back, in order, the entries the
   * compound writer's loop wrote, up to and including the END id; every
   * name is new, so each `setTag` appends.
   */
  lemma {:induction false} EntriesRoundTrip(entries: seq<Entry>, acc: seq<Entry>, data: seq<u8>, pos: nat)
    requires DistinctNames(acc + entries)
    requires forall i :: 0 <= i < |entries| ==>
      entries[i].tag.Kind() != END && |Encode(entries[i].name)| <= MAX_UTF_LENGTH && WellFormed(entries[i].tag)
    requires At(data, pos, EntriesBytes(entries) + [Id(END)])
    ensures ReadEntries(acc, data, pos, Noop) == Parsed(acc + entries, pos + |EntriesBytes(entries)| + 1, Noop)
    decreases entries, 1
  {
    if entries == [] {
      TagTypeRoundTrip(END, data, pos);
      assert acc + entries == acc;
    } else {
      var q2 := EntryRoundTrip(entries, acc, data, pos);
      MoveHead(acc, entries);
      EntriesRoundTrip(entries[1..], acc + [entries[0]], data, q2);
    }
  }

  /** One turn of the compound reader's loop reads back the first entry the writer's loop wrote. */
  lemma {:induction false} EntryRoundTrip(entries: seq<Entry>, acc: seq<Entry>, data: seq<u8>, pos: nat) returns (q2: nat)
    requires entries != [] && DistinctNames(acc + entries)
    requires entries[0].tag.Kind() != END && |Encode(entries[0].name)| <= MAX_UTF_LENGTH && WellFormed(entries[0].tag)
    requires At(data, pos, EntriesBytes(entries) + [Id(END)])
    ensures q2 <= |data| && ReadEntries(acc, data, pos, Noop) == ReadEntries(acc + [entries[0]], data, q2, Noop)
    ensures At(data, q2, EntriesBytes(entries[1..]) + [Id(END)])
    ensures q2 + |EntriesBytes(entries[1..])| == pos + |EntriesBytes(entries)|
    decreases entries, 0
  {
    var e := entries[0];
    var q;
    q, q2 := EntryBytesSplit(entries, data, pos);
    PayloadRoundTrip(e.tag, data, q);
    FreshHead(acc, entries);
    EntryHead(e, data, pos);
    NamedStep(e.tag.Kind(), data, pos + 1, e.name, q, e.tag, q2);
    assert Entry(e.name, e.tag) == e;
    assert Charge(Noop, ENTRY_COST) == Ok(Noop);
    EntriesStep(acc, data, pos, e.tag.Kind(), e, q2, Noop, Noop, Noop);
    SetTagAppends(acc, e.name, e.tag);
  }

  /** Where the first entry's kind, name and payload, and the entries after it, sit in the compound's bytes. */
  lemma EntryBytesSplit(entries: seq<Entry>, data: seq<u8>, pos: nat) returns (q: nat, q2: nat)
    requires entries != [] && At(data, pos, EntriesBytes(entries) + [Id(END)])
    ensures At(data, pos, [Id(entries[0].tag.Kind())] + Utf(entries[0].name))
    ensures q == pos + 1 + |Utf(entries[0].name)| && q2 == q + |Payload(entries[0].tag)|
    ensures At(data, q, Payload(entries[0].tag))
    ensures At(data, q2, EntriesBytes(entries[1..]) + [Id(END)])
    ensures q2 + |EntriesBytes(entries[1..])| == pos + |EntriesBytes(entries)|
  {
    var e := entries[0];
    var rest := EntriesBytes(entries[1..]) + [Id(END)];
    var head := [Id(e.tag.Kind())] + Utf(e.name);
    assert EntriesBytes(entries) + [Id(END)] == head + Payload(e.tag) + rest;
    AtSplit(data, pos, head + Payload(e.tag), rest);
    AtSplit(data, pos, head, Payload(e.tag));
    q := pos + |head|;
    q2 := q + |Payload(e.tag)|;
  }

  /** The kind and the name of an entry read back as written. */
  lemma EntryHead(e: Entry, data: seq<u8>, pos: nat)
    requires |Encode(e.name)| <= MAX_UTF_LENGTH && At(data, pos, [Id(e.tag.Kind())] + Utf(e.name))
    ensures ReadTagType(data, pos, Noop) == Parsed(e.tag.Kind(), pos + 1, Noop)
    ensures ReadString(data, pos + 1, Noop) == Parsed(e.name, pos + 1 + |Utf(e.name)|, Noop)
  {
    AtSplit(data, pos, [Id(e.tag.Kind())], Utf(e.name));
    TagTypeRoundTrip(e.tag.Kind(), data, pos);
    UtfRoundTrip(e.name, data, pos + 1, Noop);
  }

  /** A kind's id reads back as that kind. */
  lemma TagTypeRoundTrip(k: Kind, data: seq<u8>, pos: nat)
    requires pos < |data| && data[pos] == Id(k)
    ensures ReadTagType(data, pos, Noop) == Parsed(k, pos + 1, Noop)
  {
    IdsAreDistinct(k, k, 0);
  }

  /** With distinct names throughout, the next entry's name is not among those already read. */
  lemma FreshHead(acc: seq<Entry>, entries: seq<Entry>)
    requires entries != [] && DistinctNames(acc + entries)
    ensures !HasName(acc, entries[0].name)
  {
    forall i | 0 <= i < |acc| ensures acc[i].name != entries[0].name {
      assert (acc + entries)[i] == acc[i] && (acc + entries)[|acc|] == entries[0];
    }
  }

  lemma EmptyPrefix<T>(xs: seq<T>)
    ensures [] + xs == xs
  {
  }

  /** Moving the head of `xs` onto the end of `acc` keeps the concatenation. */
  lemma MoveHead<T>(acc: seq<T>, xs: seq<T>)
    requires xs != []
    ensures (acc + [xs[0]]) + xs[1..] == acc + xs
  {
    assert xs == [xs[0]] + xs[1..];
  }

  // One step of each reader with the no-op limiter, given the results of the reads it makes.

  lemma NumberStep(k: Kind, data: seq<u8>, pos: nat, t: Tag)
    requires IsNumber(k) && At(data, pos, Payload(t)) && |Payload(t)| == NumberWidth(k)
    requires NumberTag(k, Payload(t)) == t
    ensures ReadPayload(k, data, pos, Noop) == Parsed(t, pos + |Payload(t)|, Noop)
  {
    assert ReadFixed(data, pos, Noop, NumberCost(k), NumberWidth(k)) == Parsed(Payload(t), pos + |Payload(t)|, Noop);
  }

  lemma ArrayStep(k: Kind, data: seq<u8>, pos: nat, n: nat, a: seq<int>)
    requires IsArray(k) && pos + 4 <= |data| && ReadArrayHeader(k, data, pos, Noop) == Parsed(n, pos + 4, Noop)
    requires pos + 4 + ArrayBytes(k, n) <= |data| && Elements(k, data, pos + 4, n) == a
    ensures ReadPayload(k, data, pos, Noop) == Parsed(ArrayTag(k, a), pos + 4 + ArrayBytes(k, n), Noop)
  {
  }

  lemma StringStep(data: seq<u8>, pos: nat, s: JString, q: nat)
    requires pos <= |data| && ReadUtf(data, pos, Noop) == Parsed(s, q, Noop)
    ensures ReadPayload(STRING, data, pos, Noop) == Parsed(String(s), q, Noop)
  {
  }

  lemma ListStep(data: seq<u8>, pos: nat, k: Kind, items: seq<Tag>, q: nat)
    requires pos + 5 <= |data| && ReadTagType(data, pos, Noop) == Parsed(k, pos + 1, Noop)
    requires IntOf(data[pos + 1..pos + 5]) == |items| && !(k == END && |items| > 0)
    requires ReadElems(k, |items|, [], data, pos + 5, Noop) == Parsed(items, q, Noop)
    ensures ReadPayload(LIST, data, pos, Noop) == Parsed(List(k, items), q, Noop)
  {
    assert Charge(Noop, LIST_COST) == Ok(Noop) && Charge(Noop, ListRefCharge(|items|)) == Ok(Noop);
    assert ReadListBody(data, pos, Noop) == Parsed(List(k, items), q, Noop);
    assert Noop.EnterDepth() == Ok(Noop) && Noop.ExitDepth() == Ok(Noop);
  }

  lemma ElemsStep(k: Kind, n: nat, acc: seq<Tag>, data: seq<u8>, pos: nat, t: Tag, p: nat)
    requires n > 0 && pos <= |data| && ReadPayload(k, data, pos, Noop) == Parsed(t, p, Noop)
    ensures p <= |data| && ReadElems(k, n, acc, data, pos, Noop) == ReadElems(k, n - 1, acc + [t], data, p, Noop)
  {
  }

  lemma CompoundStep(data: seq<u8>, pos: nat, entries: seq<Entry>, q: nat)
    requires pos <= |data| && ReadEntries([], data, pos, Noop) == Parsed(entries, q, Noop)
    ensures ReadPayload(COMPOUND, data, pos, Noop) == Parsed(Compound(entries), q, Noop)
  {
    assert Charge(Noop, COMPOUND_COST) == Ok(Noop);
    assert ReadCompoundBody(data, pos, Noop) == Parsed(Compound(entries), q, Noop);
    assert Noop.EnterDepth() == Ok(Noop) && Noop.ExitDepth() == Ok(Noop);
  }

  lemma NamedStep(k: Kind, data: seq<u8>, pos: nat, name: JString, q: nat, t: Tag, q2: nat)
    requires pos <= |data| && q <= |data|
    requires ReadString(data, pos, Noop) == Parsed(name, q, Noop)
    requires ReadPayload(k, data, q, Noop) == Parsed(t, q2, Noop)
    ensures ReadEntry(k, data, pos, Noop) == Parsed(Entry(name, t), q2, Noop)
  {
  }
}
