/**
 * The eager NBT readers and writers of `DefaultNBTSerializer` as the source
 * runs them: a `DataInput` consumed step by step while a limiter object is
 * charged in place, arrays filled and lists and compounds built in loops,
 * and a `DataOutput` appended to. Each reader method is proved to do what
 * the reader function of the same name computes, and each writer method to
 * append what `Payload` gives.
 */
module NbtStream {
  import opened Wrappers
  import opened JavaInts
  import opened ModifiedUtf8
  import opened NbtLimiter
  import opened NbtTypes
  import D = DefaultNbtSerializer
  import E = NbtEncoding

  /** A reader method's result and the stream's new state, seen as a reader function's outcome. */
  function AsParsed<T>(r: Result<T, Error>, pos: nat, b: Budget): (p: D.Parsed<T>)
    ensures p.budget == b && (p.Parsed? <==> r.Ok?)
  {
    match r
    case Ok(v) => D.Parsed(v, pos, b)
    case Err(e) => D.Failed(e, b)
  }

  /** One more element takes one more width of bytes. */
  lemma ArrayBytesStep(k: Kind, i: int)
    requires D.IsArray(k)
    ensures D.ArrayBytes(k, i + 1) == D.ArrayBytes(k, i) + D.ElementWidth(k)
  {
  }

  /** A non-empty run of elements is its first element and then the rest. */
  lemma ElementsCons(k: Kind, data: seq<u8>, p: nat, m: nat)
    requires D.IsArray(k) && 0 < m && p + D.ArrayBytes(k, m) <= |data|
    ensures D.Elements(k, data, p, m) == [D.Element(k, data, p)] + D.Elements(k, data, p + D.ElementWidth(k), m - 1)
  {
  }

  /** Putting one element in front of a run commutes with adding one at its end. */
  lemma ConsSnoc(x: int, a: seq<int>, b: seq<int>, y: int, whole: seq<int>, shorter: seq<int>)
    requires b == a + [y] && whole == [x] + b && shorter == [x] + a
    ensures whole == shorter + [y]
  {
    SeqAssoc([x], a, [y]);
  }

  /** Reading `i + 1` elements is reading `i` and then the one at byte offset `ArrayBytes(k, i)`. */
  lemma {:induction false} ElementsSnoc(k: Kind, data: seq<u8>, p0: nat, i: nat)
    requires D.IsArray(k) && p0 + D.ArrayBytes(k, i + 1) <= |data|
    ensures D.Elements(k, data, p0, i + 1)
      == D.Elements(k, data, p0, i) + [D.Element(k, data, p0 + D.ArrayBytes(k, i))]
    decreases i
  {
    var w := D.ElementWidth(k);
    ArrayBytesStep(k, i);
    if i == 0 {
      ElementsCons(k, data, p0, 1);
    } else {
      var j := i - 1;
      ArrayBytesStep(k, j);
      ElementsSnoc(k, data, p0 + w, j);
      ElementsCons(k, data, p0, i + 1);
      ElementsCons(k, data, p0, i);
      assert p0 + w + D.ArrayBytes(k, j) == p0 + D.ArrayBytes(k, i);
      ConsSnoc(D.Element(k, data, p0), D.Elements(k, data, p0 + w, j), D.Elements(k, data, p0 + w, i),
        D.Element(k, data, p0 + D.ArrayBytes(k, i)), D.Elements(k, data, p0, i + 1), D.Elements(k, data, p0, i));
    }
  }

  /** The fill loop of an array reader: `n` elements read in turn from `p0` into a new array. */
  method ReadElements(k: Kind, data: seq<u8>, p0: nat, n: nat) returns (a: array<int>)
    requires D.IsArray(k) && p0 + D.ArrayBytes(k, n) <= |data|
    ensures fresh(a) && a[..] == D.Elements(k, data, p0, n)
  {
    a := new int[n];
    var p: nat, i: nat := p0, 0;
    while i < n
      invariant i <= n && p == p0 + D.ArrayBytes(k, i)
      invariant a[..i] == D.Elements(k, data, p0, i)
    {
      ElementsSnoc(k, data, p0, i);
      ArrayBytesStep(k, i);
      a[i] := D.Element(k, data, p);
      p := p + D.ElementWidth(k);
      i := i + 1;
    }
    assert a[..] == a[..n];
  }

  /** A `DataInput` over `data`, read from `pos`, with the limiter its readers charge. */
  class NbtInput {
    const data: seq<u8>
    var pos: nat
    const limiter: Limiter

    ghost predicate Valid()
      reads this, limiter
    {
      pos <= |data| && limiter.Valid()
    }

    constructor (data: seq<u8>, limiter: Limiter)
      requires limiter.Valid()
      ensures Valid() && this.data == data && pos == 0 && this.limiter == limiter
    {
      this.data := data;
      pos := 0;
      this.limiter := limiter;
    }

    /** `limiter.increment(amount)`. */
    method Charge(amount: int) returns (r: Result<(), Error>)
      requires Valid()
      modifies limiter
      ensures Valid()
      ensures r.Ok? ==> D.Charge(old(limiter.Model()), amount) == Ok(limiter.Model())
      ensures r.Err? ==> D.Charge(old(limiter.Model()), amount) == Err(r.error) && limiter.Model() == old(limiter.Model())
    {
      var o := limiter.Increment(amount);
      if o.Fail? {
        return Err(Limit(o.error));
      }
      return Ok(());
    }

    method ReadTagType() returns (r: Result<Kind, Error>)
      requires Valid()
      modifies this
      ensures Valid() && AsParsed(r, pos, limiter.Model()) == D.ReadTagType(data, old(pos), limiter.Model())
    {
      if pos >= |data| {
        return Err(EndOfStream);
      }
      var id := ToByte(data[pos]);
      match KindOf(id) {
        case None =>
          return Err(UnknownTagType(id));
        case Some(k) =>
          pos := pos + 1;
          return Ok(k);
      }
    }

    /** `readUTF`. */
    method ReadUtf() returns (r: Result<JString, Error>)
      requires Valid()
      modifies this
      ensures Valid() && AsParsed(r, pos, limiter.Model()) == D.ReadUtf(data, old(pos), limiter.Model())
    {
      var p := pos;
      ghost var b := limiter.Model();
      ghost var spec := D.ReadUtf(data, p, b);
      if p + 2 > |data| {
        assert spec == D.Failed(EndOfStream, b);
        return Err(EndOfStream);
      }
      var n := UnsignedShortOf(data[p..p + 2]);
      if p + 2 + n > |data| {
        assert spec == D.Failed(EndOfStream, b);
        return Err(EndOfStream);
      }
      var d := Decode(data[p + 2..p + 2 + n]);
      if d.None? {
        assert spec == D.Failed(MalformedUtf, b);
        return Err(MalformedUtf);
      }
      assert spec == D.Parsed(d.value, p + 2 + n, b);
      pos := p + 2 + n;
      return Ok(d.value);
    }

    /** `DefaultNBTSerializer.readString`. */
    method ReadString() returns (r: Result<JString, Error>)
      requires Valid()
      modifies this, limiter
      ensures Valid() && AsParsed(r, pos, limiter.Model()) == D.ReadString(data, old(pos), old(limiter.Model()))
    {
      r := ReadUtf();
      if r.Err? {
        return;
      }
      var c := Charge(D.STRING_SIZE_BYTES + 2 * |r.value|);
      if c.Err? {
        return Err(c.error);
      }
    }

    /** The BYTE, SHORT, INT, LONG, FLOAT and DOUBLE readers. */
    method ReadNumber(k: Kind) returns (r: Result<Tag, Error>)
      requires Valid() && D.IsNumber(k)
      modifies this, limiter
      ensures Valid() && AsParsed(r, pos, limiter.Model()) == D.ReadNumber(k, data, old(pos), old(limiter.Model()))
    {
      var c := Charge(D.NumberCost(k));
      if c.Err? {
        return Err(c.error);
      }
      var w := D.NumberWidth(k);
      if pos + w > |data| {
        return Err(EndOfStream);
      }
      var bs := data[pos..pos + w];
      pos := pos + w;
      return Ok(D.NumberTag(k, bs));
    }

    /** The STRING reader. */
    method ReadStringTag() returns (r: Result<Tag, Error>)
      requires Valid()
      modifies this, limiter
      ensures Valid() && AsParsed(r, pos, limiter.Model()) == D.ReadStringTag(data, old(pos), old(limiter.Model()))
    {
      var c := Charge(D.STRING_COST);
      if c.Err? {
        return Err(c.error);
      }
      var s := ReadUtf();
      if s.Err? {
        return Err(s.error);
      }
      c := Charge(2 * |s.value|);
      if c.Err? {
        return Err(c.error);
      }
      return Ok(String(s.value));
    }

    /** The head of the array readers: the length, once every guard has passed. */
    method ReadArrayHeader(k: Kind) returns (r: Result<nat, Error>)
      requires Valid() && D.IsArray(k)
      modifies this, limiter
      ensures Valid() && AsParsed(r, pos, limiter.Model()) == D.ReadArrayHeader(k, data, old(pos), old(limiter.Model()))
    {
      var c := Charge(D.ARRAY_COST);
      if c.Err? {
        return Err(c.error);
      }
      if pos + 4 > |data| {
        return Err(EndOfStream);
      }
      var length := IntOf(data[pos..pos + 4]);
      if length >= D.ARRAY_LENGTH_LIMIT {
        return Err(ArrayTooLarge(length));
      }
      var amount := Wrap32(D.ArrayBytes(k, length));
      c := Charge(amount);
      if c.Err? {
        return Err(c.error);
      }
      var o := limiter.CheckReadability(amount, |data| - (pos + 4));
      if o.Fail? {
        return Err(Limit(o.error));
      }
      if length < 0 {
        return Err(NegativeArraySize(length));
      }
      pos := pos + 4;
      return Ok(length);
    }

    /** The BYTE_ARRAY, INT_ARRAY and LONG_ARRAY readers: allocate, then fill element by element. */
    method ReadArray(k: Kind) returns (r: Result<Tag, Error>)
      requires Valid() && D.IsArray(k)
      modifies this, limiter
      ensures Valid() && AsParsed(r, pos, limiter.Model()) == D.ReadArray(k, data, old(pos), old(limiter.Model()))
    {
      var h := ReadArrayHeader(k);
      if h.Err? {
        return Err(h.error);
      }
      if pos + D.ArrayBytes(k, h.value) > |data| {
        return Err(EndOfStream);
      }
      var a := ReadElements(k, data, pos, h.value);
      pos := pos + D.ArrayBytes(k, h.value);
      return Ok(D.ArrayTag(k, a[..]));
    }

    /** The reader registered for kind `k`. */
    method ReadPayload(k: Kind) returns (r: Result<Tag, Error>)
      requires Valid()
      modifies this, limiter
      decreases |data| - pos, 4
      ensures Valid() && AsParsed(r, pos, limiter.Model()) == D.ReadPayload(k, data, old(pos), old(limiter.Model()))
    {
      match k {
        case END =>
          var c := Charge(D.OBJECT_HEADER_BYTES);
          if c.Err? {
            return Err(c.error);
          }
          return Ok(End);
        case STRING => r := ReadStringTag();
        case LIST => r := ReadList();
        case COMPOUND => r := ReadCompound();
        case BYTE_ARRAY => r := ReadArray(k);
        case INT_ARRAY => r := ReadArray(k);
        case LONG_ARRAY => r := ReadArray(k);
        case _ => r := ReadNumber(k);
      }
    }

    /** `limiter.exitDepth()` in the `finally` of the LIST and COMPOUND readers; it replaces the body's error when it throws. */
    method ExitAfter<T>(body: Result<T, Error>) returns (r: Result<T, Error>)
      requires Valid()
      modifies limiter
      ensures Valid()
      ensures AsParsed(r, pos, limiter.Model()) == D.ExitAfter(AsParsed(body, pos, old(limiter.Model())))
    {
      var x := limiter.ExitDepth();
      if x.Fail? {
        return Err(Limit(x.error));
      }
      return body;
    }

    /** The LIST reader. */
    method ReadList() returns (r: Result<Tag, Error>)
      requires Valid()
      modifies this, limiter
      decreases |data| - pos, 3
      ensures Valid() && AsParsed(r, pos, limiter.Model()) == D.ReadList(data, old(pos), old(limiter.Model()))
    {
      var d := limiter.EnterDepth();
      if d.Fail? {
        return Err(Limit(d.error));
      }
      var body := ReadListBody();
      r := ExitAfter(body);
    }

    /** The body of the LIST reader: element kind, size, the guards and charges, then the elements in a counted loop. */
    method ReadListBody() returns (r: Result<Tag, Error>)
      requires Valid()
      modifies this, limiter
      decreases |data| - pos, 2
      ensures Valid() && AsParsed(r, pos, limiter.Model()) == D.ReadListBody(data, old(pos), old(limiter.Model()))
    {
      var c := Charge(D.LIST_COST);
      if c.Err? {
        return Err(c.error);
      }
      var k := ReadTagType();
      if k.Err? {
        return Err(k.error);
      }
      if pos + 4 > |data| {
        return Err(EndOfStream);
      }
      var size := IntOf(data[pos..pos + 4]);
      if k.value == END && size > 0 {
        return Err(MissingListType);
      }
      c := Charge(D.ListRefCharge(size));
      if c.Err? {
        return Err(c.error);
      }
      if size < 0 {
        return Err(NegativeListSize(size));
      }
      pos := pos + 4;
      var items := ReadItems(k.value, size);
      if items.Err? {
        return Err(items.error);
      }
      return Ok(List(k.value, items.value));
    }

    /** The list reader's loop: `size` elements of kind `k`, read in turn. */
    method ReadItems(k: Kind, size: nat) returns (r: Result<seq<Tag>, Error>)
      requires Valid()
      modifies this, limiter
      decreases |data| - pos, 5
      ensures Valid() && AsParsed(r, pos, limiter.Model()) == D.ReadElems(k, size, [], data, old(pos), old(limiter.Model()))
    {
      var items: seq<Tag> := [];
      var i := 0;
      while i < size
        invariant Valid() && i <= size && old(pos) <= pos
        invariant D.ReadElems(k, size - i, items, data, pos, limiter.Model())
          == D.ReadElems(k, size, [], data, old(pos), old(limiter.Model()))
      {
        var t := ReadPayload(k);
        if t.Err? {
          return Err(t.error);
        }
        items := items + [t.value];
        i := i + 1;
      }
      return Ok(items);
    }

    /** The COMPOUND reader. */
    method ReadCompound() returns (r: Result<Tag, Error>)
      requires Valid()
      modifies this, limiter
      decreases |data| - pos, 3
      ensures Valid() && AsParsed(r, pos, limiter.Model()) == D.ReadCompound(data, old(pos), old(limiter.Model()))
    {
      var d := limiter.EnterDepth();
      if d.Fail? {
        return Err(Limit(d.error));
      }
      var body := ReadCompoundBody();
      r := ExitAfter(body);
    }

    /**
     * The body of the COMPOUND reader: the map's charge, then a loop reading
     * a type and, until END, a name and a value; the entry overhead is
     * charged for new names only, and `setTag` keeps the last value.
     */
    method ReadCompoundBody() returns (r: Result<Tag, Error>)
      requires Valid()
      modifies this, limiter
      decreases |data| - pos, 2
      ensures Valid() && AsParsed(r, pos, limiter.Model()) == D.ReadCompoundBody(data, old(pos), old(limiter.Model()))
    {
      var c := Charge(D.COMPOUND_COST);
      if c.Err? {
        return Err(c.error);
      }
      ghost var goal := D.ReadEntries([], data, pos, limiter.Model());
      var entries: seq<Entry> := [];
      while true
        invariant Valid() && old(pos) <= pos
        invariant D.ReadEntries(entries, data, pos, limiter.Model()) == goal
        decreases |data| - pos
      {
        ghost var p0, b0 := pos, limiter.Model();
        var k := ReadTagType();
        if k.Err? {
          return Err(k.error);
        }
        if k.value == END {
          break;
        }
        var e := ReadEntry(k.value);
        if e.Err? {
          return Err(e.error);
        }
        if !HasName(entries, e.value.name) {
          c := Charge(D.ENTRY_COST);
          if c.Err? {
            return Err(c.error);
          }
        }
        assert D.ReadEntries(entries, data, p0, b0)
          == D.ReadEntries(SetTag(entries, e.value.name, e.value.tag), data, pos, limiter.Model());
        entries := SetTag(entries, e.value.name, e.value.tag);
      }
      return Ok(Compound(entries));
    }

    /** One entry of a compound after its type: the name, then the value. */
    method ReadEntry(k: Kind) returns (r: Result<Entry, Error>)
      requires Valid()
      modifies this, limiter
      decreases |data| - pos, 0
      ensures Valid() && AsParsed(r, pos, limiter.Model()) == D.ReadEntry(k, data, old(pos), old(limiter.Model()))
    {
      var name := ReadString();
      if name.Err? {
        return Err(name.error);
      }
      var t := ReadPayload(k);
      if t.Err? {
        return Err(t.error);
      }
      return Ok(Entry(name.value, t.value));
    }
  }

  /** A `DataOutput` collecting what the writers emit. */
  class NbtOutput {
    var out: seq<u8>

    constructor ()
      ensures out == []
    {
      out := [];
    }

    /** `writeUTF`: throws, having written nothing, when the encoding does not fit 16 bits. */
    method WriteUtf(s: JString) returns (r: Outcome<Error>)
      modifies this
      ensures r.Pass? <==> |Encode(s)| <= MAX_UTF_LENGTH
      ensures out == if r.Pass? then old(out) + E.Utf(s) else old(out)
    {
      var e := Encode(s);
      if |e| > MAX_UTF_LENGTH {
        return Fail(MalformedUtf);
      }
      out := out + ShortBytes(|e|) + e;
      r := Pass;
    }

    /**
     * The writer registered for `t`'s kind. It fails exactly when some
     * string of the tree does not fit `writeUTF` (what was written before is
     * then left in the output); otherwise it appends `Payload(t)`.
     */
    method WriteTag(t: Tag) returns (r: Outcome<Error>)
      modifies this
      decreases t, 2
      ensures r.Pass? <==> E.Fits(t)
      ensures r.Pass? ==> out == old(out) + E.Payload(t)
    {
      ghost var o := out;
      match t {
        case String(s) =>
          r := WriteUtf(s);
        case List(k, items) =>
          out := out + [Id(k)] + IntBytes(|items|);
          r := WriteItems(t, items);
          if r.Pass? {
            Append3(o, [Id(k)], IntBytes(|items|), E.ItemsBytes(items));
          }
        case Compound(entries) =>
          r := WriteEntries(t, entries);
          if r.Pass? {
            out := out + [Id(END)];
            SeqAssoc(o, E.EntriesBytes(entries), [Id(END)]);
          }
        case _ =>
          WriteFlat(t);
          r := Pass;
      }
    }

    /** The writers of the kinds that hold no string: numbers big-endian, arrays after their length. */
    method WriteFlat(t: Tag)
      requires !t.String? && !t.List? && !t.Compound?
      modifies this
      ensures E.Fits(t) && out == old(out) + E.Payload(t)
    {
      FlatPayload(t);
      if D.IsArray(t.Kind()) {
        WriteArray(t.Kind(), E.ArrayElements(t));
      } else {
        out := out + E.Payload(t);
      }
    }

    /** An array writer: the length, then the elements. */
    method WriteArray(k: Kind, a: seq<int>)
      requires D.IsArray(k)
      modifies this
      ensures out == old(out) + IntBytes(|a|) + E.Words(k, a)
    {
      out := out + IntBytes(|a|);
      WriteWords(k, a);
    }

    /** The array writers' loop: each element big-endian, in order. */
    method WriteWords(k: Kind, a: seq<int>)
      requires D.IsArray(k)
      modifies this
      ensures out == old(out) + E.Words(k, a)
    {
      var i := 0;
      while i < |a|
        invariant i <= |a| && out + E.Words(k, a[i..]) == old(out) + E.Words(k, a)
      {
        assert a[i..][1..] == a[i + 1..];
        out := out + BigEndian(a[i], D.ElementWidth(k));
        i := i + 1;
      }
    }

    /** The list writer's loop: each element's payload, in order. */
    method WriteItems(ghost t: Tag, items: seq<Tag>) returns (r: Outcome<Error>)
      requires t.List? && t.items == items
      modifies this
      decreases t, 1
      ensures r.Pass? <==> forall i :: 0 <= i < |items| ==> E.Fits(items[i])
      ensures r.Pass? ==> out == old(out) + E.ItemsBytes(items)
    {
      var i := 0;
      while i < |items|
        invariant i <= |items| && forall j :: 0 <= j < i ==> E.Fits(items[j])
        invariant out + E.ItemsBytes(items[i..]) == old(out) + E.ItemsBytes(items)
      {
        ItemsBytesStep(items, i);
        ghost var before := out;
        r := WriteTag(items[i]);
        if r.Fail? {
          return;
        }
        SeqAssoc(before, E.Payload(items[i]), E.ItemsBytes(items[i + 1..]));
        i := i + 1;
      }
      r := Pass;
    }

    /** The compound writer's loop: kind, name and payload of each entry, in order. */
    method WriteEntries(ghost t: Tag, entries: seq<Entry>) returns (r: Outcome<Error>)
      requires t.Compound? && t.entries == entries
      modifies this
      decreases t, 1
      ensures r.Pass? <==> forall i :: 0 <= i < |entries| ==> EntryFits(entries[i])
      ensures r.Pass? ==> out == old(out) + E.EntriesBytes(entries)
    {
      var i := 0;
      while i < |entries|
        invariant i <= |entries| && forall j :: 0 <= j < i ==> EntryFits(entries[j])
        invariant out + E.EntriesBytes(entries[i..]) == old(out) + E.EntriesBytes(entries)
      {
        EntriesBytesStep(entries, i);
        assert entries[i] in entries;
        ghost var before := out;
        r := WriteEntry(t, entries[i]);
        if r.Fail? {
          return;
        }
        SeqAssoc(before, EntryBytes(entries[i]), E.EntriesBytes(entries[i + 1..]));
        i := i + 1;
      }
      r := Pass;
    }

    /** One entry of the compound writer: its kind id, its name, its payload. */
    method WriteEntry(ghost t: Tag, e: Entry) returns (r: Outcome<Error>)
      requires t.Compound? && e in t.entries
      modifies this
      decreases t, 0
      ensures r.Pass? <==> EntryFits(e)
      ensures r.Pass? ==> out == old(out) + EntryBytes(e)
    {
      ghost var o := out;
      out := out + [Id(e.tag.Kind())];
      r := WriteUtf(e.name);
      if r.Fail? {
        return;
      }
      r := WriteTag(e.tag);
      if r.Pass? {
        Append3(o, [Id(e.tag.Kind())], E.Utf(e.name), E.Payload(e.tag));
      }
    }
  }

  /** Every string in the entry fits `writeUTF`'s count. */
  predicate EntryFits(e: Entry)
  {
    |Encode(e.name)| <= MAX_UTF_LENGTH && E.Fits(e.tag)
  }

  /** What the compound writer emits for one entry. */
  function EntryBytes(e: Entry): seq<u8>
  {
    [Id(e.tag.Kind())] + E.Utf(e.name) + E.Payload(e.tag)
  }

  lemma EntriesBytesStep(entries: seq<Entry>, i: nat)
    requires i < |entries|
    ensures E.EntriesBytes(entries[i..]) == EntryBytes(entries[i]) + E.EntriesBytes(entries[i + 1..])
  {
    assert entries[i..][1..] == entries[i + 1..];
  }

  /** A tag with no nested names or tags always fits, and an array's payload is its length and then its elements. */
  lemma FlatPayload(t: Tag)
    requires !t.String? && !t.List? && !t.Compound?
    ensures E.Fits(t)
    ensures D.IsArray(t.Kind()) ==> E.Payload(t) == IntBytes(|E.ArrayElements(t)|) + E.Words(t.Kind(), E.ArrayElements(t))
  {
  }

  lemma ItemsBytesStep(items: seq<Tag>, i: nat)
    requires i < |items|
    ensures E.ItemsBytes(items[i..]) == E.Payload(items[i]) + E.ItemsBytes(items[i + 1..])
  {
    assert items[i..][1..] == items[i + 1..];
  }

  lemma SeqAssoc<T>(x: seq<T>, y: seq<T>, z: seq<T>)
    ensures (x + y) + z == x + (y + z)
  {
  }

  lemma Append3<T>(o: seq<T>, x: seq<T>, y: seq<T>, z: seq<T>)
    ensures o + x + y + z == o + (x + y + z)
  {
  }
}
