/**
 * The skip table of the streaming reader as the source runs it: each
 * skipper charges the limiter object in place and moves a `DataInput` on,
 * the LIST skipper in a counted loop and the COMPOUND skipper in a loop up
 * to END. Each method is proved to leave the stream and the limiter as the
 * `TagSkips` function of the same name computes.
 */
module SkipStream {
  import opened Wrappers
  import opened JavaInts
  import opened ModifiedUtf8
  import opened NbtLimiter
  import opened NbtTypes
  import opened NbtStream
  import D = DefaultNbtSerializer
  import S = TagSkips

  /** `DataInput.readInt`. */
  method ReadInt(input: NbtInput) returns (r: Result<int, Error>)
    requires input.Valid()
    modifies input
    ensures input.Valid() && AsParsed(r, input.pos, input.limiter.Model()) == S.ReadInt(input.data, old(input.pos), input.limiter.Model())
  {
    var p := input.pos;
    if p + 4 > |input.data| {
      return Err(EndOfStream);
    }
    r := Ok(IntOf(input.data[p..p + 4]));
    input.pos := p + 4;
  }

  /** `DataInput.readUnsignedShort`. */
  method ReadUnsignedShort(input: NbtInput) returns (r: Result<int, Error>)
    requires input.Valid()
    modifies input
    ensures input.Valid() && AsParsed(r, input.pos, input.limiter.Model()) == S.ReadUnsignedShort(input.data, old(input.pos), input.limiter.Model())
  {
    var p := input.pos;
    if p + 2 > |input.data| {
      return Err(EndOfStream);
    }
    r := Ok(UnsignedShortOf(input.data[p..p + 2]));
    input.pos := p + 2;
  }

  /** `DataInput.skipBytes(n)`. */
  method SkipBytes(input: NbtInput, n: int)
    requires input.Valid()
    modifies input
    ensures input.Valid() && input.pos == S.SkipBytes(input.data, old(input.pos), n)
  {
    if n > 0 {
      input.pos := if input.pos + n <= |input.data| then input.pos + n else |input.data|;
    }
  }

  /** The BYTE, SHORT, INT, LONG, FLOAT and DOUBLE skippers. */
  method SkipScalar(input: NbtInput, k: Kind) returns (r: Result<(), Error>)
    requires input.Valid() && D.IsNumber(k)
    modifies input, input.limiter
    ensures input.Valid()
    ensures AsParsed(r, input.pos, input.limiter.Model()) == S.SkipScalar(k, input.data, old(input.pos), old(input.limiter.Model()))
  {
    var c := input.Charge(D.OBJECT_HEADER_BYTES + D.NumberWidth(k));
    if c.Err? {
      return Err(c.error);
    }
    SkipBytes(input, D.NumberWidth(k));
    return Ok(());
  }

  /** The BYTE_ARRAY, INT_ARRAY and LONG_ARRAY skippers, with the exact byte count of `TagSkips.SkipArray`. */
  method SkipArray(input: NbtInput, k: Kind) returns (r: Result<(), Error>)
    requires input.Valid() && D.IsArray(k)
    modifies input, input.limiter
    ensures input.Valid()
    ensures AsParsed(r, input.pos, input.limiter.Model()) == S.SkipArray(k, input.data, old(input.pos), old(input.limiter.Model()))
  {
    var c := input.Charge(D.ARRAY_COST);
    if c.Err? {
      return Err(c.error);
    }
    var length := ReadInt(input);
    if length.Err? {
      return Err(length.error);
    }
    var bytes := D.ArrayBytes(k, length.value);
    c := input.Charge(bytes);
    if c.Err? {
      return Err(c.error);
    }
    var check := input.limiter.CheckReadability(bytes, |input.data| - input.pos);
    if check.Fail? {
      return Err(Limit(check.error));
    }
    SkipBytes(input, bytes);
    return Ok(());
  }

  /** The STRING skipper. */
  method SkipString(input: NbtInput) returns (r: Result<(), Error>)
    requires input.Valid()
    modifies input, input.limiter
    ensures input.Valid()
    ensures AsParsed(r, input.pos, input.limiter.Model()) == S.SkipString(input.data, old(input.pos), old(input.limiter.Model()))
  {
    var c := input.Charge(D.STRING_COST);
    if c.Err? {
      return Err(c.error);
    }
    var length := ReadUnsignedShort(input);
    if length.Err? {
      return Err(length.error);
    }
    c := input.Charge(2 * length.value);
    if c.Err? {
      return Err(c.error);
    }
    SkipBytes(input, length.value);
    return Ok(());
  }

  /** `TAG_SKIPS.get(k).skip(limiter, in)`; END has no skipper. */
  method Skip(input: NbtInput, k: Kind) returns (r: Result<(), Error>)
    requires input.Valid()
    modifies input, input.limiter
    decreases |input.data| - input.pos, 2
    ensures input.Valid() && (r.Ok? ==> old(input.pos) <= input.pos)
    ensures AsParsed(r, input.pos, input.limiter.Model()) == S.Skip(k, input.data, old(input.pos), old(input.limiter.Model()))
  {
    match k {
      case END => return Err(NoSkipper);
      case STRING => r := SkipString(input);
      case LIST => r := SkipList(input);
      case COMPOUND => r := SkipCompound(input);
      case BYTE_ARRAY => r := SkipArray(input, k);
      case INT_ARRAY => r := SkipArray(input, k);
      case LONG_ARRAY => r := SkipArray(input, k);
      case _ => r := SkipScalar(input, k);
    }
  }

  /** The LIST skipper: `enterDepth`, the body, and `exitDepth` in `finally`. */
  method SkipList(input: NbtInput) returns (r: Result<(), Error>)
    requires input.Valid()
    modifies input, input.limiter
    decreases |input.data| - input.pos, 1
    ensures input.Valid() && (r.Ok? ==> old(input.pos) <= input.pos)
    ensures AsParsed(r, input.pos, input.limiter.Model()) == S.SkipList(input.data, old(input.pos), old(input.limiter.Model()))
  {
    var d := input.limiter.EnterDepth();
    if d.Fail? {
      return Err(Limit(d.error));
    }
    var body := SkipListBody(input);
    r := input.ExitAfter(body);
  }

  /** The body of the LIST skipper: charge, element kind, size, reference charge, then the elements. */
  method SkipListBody(input: NbtInput) returns (r: Result<(), Error>)
    requires input.Valid()
    modifies input, input.limiter
    decreases |input.data| - input.pos, 0
    ensures input.Valid() && (r.Ok? ==> old(input.pos) <= input.pos)
    ensures AsParsed(r, input.pos, input.limiter.Model()) == S.SkipListBody(input.data, old(input.pos), old(input.limiter.Model()))
  {
    var c := input.Charge(D.LIST_COST);
    if c.Err? {
      return Err(c.error);
    }
    var k := input.ReadTagType();
    if k.Err? {
      return Err(k.error);
    }
    var length := ReadInt(input);
    if length.Err? {
      return Err(length.error);
    }
    c := input.Charge(D.ListRefCharge(length.value));
    if c.Err? {
      return Err(c.error);
    }
    r := SkipItems(input, k.value, if length.value < 0 then 0 else length.value);
  }

  /** `for (int i = 0; i < n; i++) TAG_SKIPS.get(k).skip(limiter, in)`. */
  method SkipItems(input: NbtInput, k: Kind, n: nat) returns (r: Result<(), Error>)
    requires input.Valid()
    modifies input, input.limiter
    decreases |input.data| - input.pos, 3
    ensures input.Valid() && (r.Ok? ==> old(input.pos) <= input.pos)
    ensures AsParsed(r, input.pos, input.limiter.Model()) == S.SkipItems(k, n, input.data, old(input.pos), old(input.limiter.Model()))
  {
    var i := 0;
    while i < n
      invariant input.Valid() && i <= n && old(input.pos) <= input.pos
      invariant S.SkipItems(k, n - i, input.data, input.pos, input.limiter.Model())
        == S.SkipItems(k, n, input.data, old(input.pos), old(input.limiter.Model()))
    {
      var s := Skip(input, k);
      if s.Err? {
        return Err(s.error);
      }
      i := i + 1;
    }
    return Ok(());
  }

  /** The COMPOUND skipper: `enterDepth`, the body, and `exitDepth` in `finally`. */
  method SkipCompound(input: NbtInput) returns (r: Result<(), Error>)
    requires input.Valid()
    modifies input, input.limiter
    decreases |input.data| - input.pos, 1
    ensures input.Valid() && (r.Ok? ==> old(input.pos) <= input.pos)
    ensures AsParsed(r, input.pos, input.limiter.Model()) == S.SkipCompound(input.data, old(input.pos), old(input.limiter.Model()))
  {
    var d := input.limiter.EnterDepth();
    if d.Fail? {
      return Err(Limit(d.error));
    }
    var body := SkipCompoundBody(input);
    r := input.ExitAfter(body);
  }

  /**
   * The body of the COMPOUND skipper: the map's charge, then a loop that
   * reads a type and, until END, a name (charging the entry overhead when
   * the name is new) and skips the value.
   */
  method SkipCompoundBody(input: NbtInput) returns (r: Result<(), Error>)
    requires input.Valid()
    modifies input, input.limiter
    decreases |input.data| - input.pos, 0
    ensures input.Valid() && (r.Ok? ==> old(input.pos) <= input.pos)
    ensures AsParsed(r, input.pos, input.limiter.Model()) == S.SkipCompoundBody(input.data, old(input.pos), old(input.limiter.Model()))
  {
    var c := input.Charge(D.COMPOUND_COST);
    if c.Err? {
      return Err(c.error);
    }
    ghost var goal := S.SkipEntries({}, input.data, input.pos, input.limiter.Model());
    var names: set<JString> := {};
    while true
      invariant input.Valid() && old(input.pos) <= input.pos
      invariant S.SkipEntries(names, input.data, input.pos, input.limiter.Model()) == goal
      decreases |input.data| - input.pos
    {
      ghost var p0, b0 := input.pos, input.limiter.Model();
      var k := input.ReadTagType();
      if k.Err? {
        return Err(k.error);
      }
      if k.value == END {
        return Ok(());
      }
      var name := input.ReadString();
      if name.Err? {
        return Err(name.error);
      }
      if name.value !in names {
        c := input.Charge(D.ENTRY_COST);
        if c.Err? {
          return Err(c.error);
        }
      }
      ghost var p1, b1 := input.pos, input.limiter.Model();
      var s := Skip(input, k.value);
      if s.Err? {
        return Err(s.error);
      }
      assert S.SkipEntries(names, input.data, p0, b0) == S.SkipEntries(names + {name.value}, input.data, input.pos, input.limiter.Model());
      names := names + {name.value};
    }
  }
}
