/**
 * The NBT resource limiter: a byte budget and a nesting-depth budget that
 * every NBT decode path charges. `NBTLimiter.forBuffer` gives a limiter with
 * the counters `bytes` and `depth` and fixed ceilings; `NBTLimiter.noop`
 * gives one that accepts everything.
 *
 * `Budget` is the value a limiter holds; `Limiter` is the object the decoders
 * share and mutate. The decoders' specifications are written over `Budget`.
 */
module NbtLimiter {
  import opened Wrappers
  import opened JavaInts

  /** The ceilings used when no system property overrides them. */
  const DEFAULT_MAX_SIZE: int := 0x10_0000
  const DEFAULT_MAX_DEPTH: int := 512

  datatype LimitError =
    | NegativeAmount(amount: int)
    | SizeLimitReached(bytes: int, maxBytes: int)
    | CannotReadMore(length: int, readable: int)
    | DepthLimitReached(depth: int, maxDepth: int)
    | TopLevelExit

  datatype Budget =
    | Noop
    | Bounded(bytes: int, depth: int, maxBytes: int, maxDepth: int)
  {
    /**
     * What a buffer limiter keeps true: both counters are non-negative and
     * within their ceiling (a negative ceiling pins its counter at 0).
     */
    predicate Valid()
    {
      Noop? ||
      (IsInt(maxBytes) && IsInt(maxDepth)
       && 0 <= bytes && (bytes <= maxBytes || bytes == 0)
       && 0 <= depth && (depth <= maxDepth || depth == 0))
    }

    /** `increment(amount)`: charge `amount` bytes to the budget. */
    function Increment(amount: int): Result<Budget, LimitError>
    {
      match this
      case Noop => Ok(Noop)
      case Bounded(b, d, mb, md) =>
        if amount < 0 then Err(NegativeAmount(amount))
        else if b + amount > mb then Err(SizeLimitReached(b, mb))
        else Ok(Bounded(b + amount, d, mb, md))
    }

    /** `checkReadability(length)`, with the buffer's readable bytes passed in. */
    function CheckReadability(length: int, readable: int): Outcome<LimitError>
    {
      if Bounded? && length > readable then Fail(CannotReadMore(length, readable)) else Pass
    }

    /** `enterDepth()`: one more level of nesting. */
    function EnterDepth(): Result<Budget, LimitError>
    {
      match this
      case Noop => Ok(Noop)
      case Bounded(b, d, mb, md) =>
        if d >= md then Err(DepthLimitReached(d, md)) else Ok(Bounded(b, d + 1, mb, md))
    }

    /** `exitDepth()`: one level of nesting less. */
    function ExitDepth(): Result<Budget, LimitError>
    {
      match this
      case Noop => Ok(Noop)
      case Bounded(b, d, mb, md) =>
        if d <= 0 then Err(TopLevelExit) else Ok(Bounded(b, d - 1, mb, md))
    }

    /** Two budgets of the same limiter: same flavour and same ceilings. */
    predicate SameLimiter(other: Budget)
    {
      (Noop? && other.Noop?) ||
      (Bounded? && other.Bounded? && maxBytes == other.maxBytes && maxDepth == other.maxDepth)
    }
  }

  /** The budget of a fresh `forBuffer(byteBuf, maxBytes, maxDepth)` limiter. */
  function ForBuffer(maxBytes: int32, maxDepth: int32): (b: Budget)
    ensures b.Valid() && b.Bounded? && b.bytes == 0 && b.depth == 0
  {
    Bounded(0, 0, maxBytes, maxDepth)
  }

  /** A charge fails exactly when it is negative or would pass the ceiling, and then changes nothing. */
  lemma IncrementSpec(b: Budget, amount: int)
    requires b.Bounded?
    ensures b.Increment(amount).Err? <==> amount < 0 || b.bytes + amount > b.maxBytes
    ensures amount < 0 ==> b.Increment(amount) == Err(NegativeAmount(amount))
    ensures b.Increment(amount).Ok? ==> b.Increment(amount).value == b.(bytes := b.bytes + amount)
  {
  }

  /** Every successful call keeps `0 <= bytes <= maxBytes` and the depth bounds. */
  lemma SuccessKeepsValid(b: Budget, amount: int)
    requires b.Valid()
    ensures b.Increment(amount).Ok? ==> b.Increment(amount).value.Valid()
    ensures b.EnterDepth().Ok? ==> b.EnterDepth().value.Valid()
    ensures b.ExitDepth().Ok? ==> b.ExitDepth().value.Valid()
    ensures b.Increment(amount).Ok? && b.Bounded? ==> b.Increment(amount).value.bytes <= b.maxBytes
  {
  }

  /** A matched `enterDepth`/`exitDepth` pair restores the budget. */
  lemma EnterExitRestores(b: Budget)
    requires b.Valid() && b.EnterDepth().Ok?
    ensures b.EnterDepth().value.ExitDepth() == Ok(b)
  {
  }

  /** The no-op limiter never fails and never changes. */
  lemma NoopNeverFails(amount: int, length: int, readable: int)
    ensures Noop.Increment(amount) == Ok(Noop)
    ensures Noop.CheckReadability(length, readable) == Pass
    ensures Noop.EnterDepth() == Ok(Noop) && Noop.ExitDepth() == Ok(Noop)
  {
  }

  /**
   * `increment` exactly as written: `this.bytes + amount` is evaluated in
   * 32-bit `int` arithmetic, so a large charge wraps to a negative sum and
   * passes the ceiling test.
   */
  function IncrementAsWritten(bytes: int32, amount: int32, maxBytes: int32): (r: Option<int32>)
    ensures r.Some? ==> r.value == Wrap32(bytes + amount)
    ensures amount < 0 ==> r.None?
  {
    if amount < 0 then None
    else if Wrap32(bytes + amount) > maxBytes then None
    else Some(Wrap32(bytes + amount))
  }

  /**
   * A list of 2^29 - 1 elements asks for a charge of 4 * (2^29 - 1) right
   * after the list's own 36-byte overhead: as written the sum wraps, the
   * charge is accepted and the counter becomes negative; the corrected
   * `Increment` refuses it.
   */
  lemma AsWrittenAcceptsOverflowingCharge()
    ensures IncrementAsWritten(36, 0x7FFF_FFFC, DEFAULT_MAX_SIZE) == Some(-0x7FFF_FFE0)
    ensures Bounded(36, 1, DEFAULT_MAX_SIZE, DEFAULT_MAX_DEPTH).Increment(0x7FFF_FFFC).Err?
  {
  }

  /** Where no 32-bit overflow occurs, the corrected `Increment` agrees with the source. */
  lemma AsWrittenAgreesWithoutOverflow(bytes: int32, amount: int32, maxBytes: int32)
    requires IsInt(bytes + amount)
    ensures var w := IncrementAsWritten(bytes, amount, maxBytes);
            var c := Bounded(bytes, 0, maxBytes, 0).Increment(amount);
            (w.Some? <==> c.Ok?) && (w.Some? ==> c.value.bytes == w.value)
  {
  }

  /**
   * The limiter object. `enforcing` distinguishes a `forBuffer` limiter from
   * the `noop` one; the counters of a no-op limiter are never touched.
   */
  class Limiter {
    const enforcing: bool
    const maxBytes: int
    const maxDepth: int
    var bytes: int
    var depth: int

    function Model(): Budget
      reads this
    {
      if enforcing then Bounded(bytes, depth, maxBytes, maxDepth) else Noop
    }

    ghost predicate Valid()
      reads this
    {
      Model().Valid()
    }

    /** `NBTLimiter.noop()`. */
    constructor NoopLimiter()
      ensures Model() == Noop && Valid()
    {
      enforcing := false;
      maxBytes, maxDepth := 0, 0;
      bytes, depth := 0, 0;
    }

    /** `NBTLimiter.forBuffer(byteBuf, maxBytes, maxDepth)`. */
    constructor ForBuffer(maxBytes: int32, maxDepth: int32)
      ensures Model() == Bounded(0, 0, maxBytes, maxDepth) && Valid()
    {
      enforcing := true;
      this.maxBytes, this.maxDepth := maxBytes, maxDepth;
      bytes, depth := 0, 0;
    }

    /** `NBTLimiter.forBuffer(byteBuf)`: the default ceilings. */
    constructor ForBufferDefault()
      ensures Model() == Bounded(0, 0, DEFAULT_MAX_SIZE, DEFAULT_MAX_DEPTH) && Valid()
    {
      enforcing := true;
      maxBytes, maxDepth := DEFAULT_MAX_SIZE, DEFAULT_MAX_DEPTH;
      bytes, depth := 0, 0;
    }

    method Increment(amount: int) returns (r: Outcome<LimitError>)
      requires Valid()
      modifies this
      ensures Valid() && depth == old(depth)
      ensures enforcing ==> (r.Fail? <==> amount < 0 || old(bytes) + amount > maxBytes)
      ensures enforcing && amount < 0 ==> r == Fail(NegativeAmount(amount))
      ensures !enforcing ==> r.Pass?
      ensures bytes == if enforcing && r.Pass? then old(bytes) + amount else old(bytes)
      ensures r.Pass? ==> old(Model()).Increment(amount) == Ok(Model())
      ensures r.Fail? ==> old(Model()).Increment(amount) == Err(r.error) && Model() == old(Model())
    {
      if !enforcing {
        return Pass;
      }
      if amount < 0 {
        return Fail(NegativeAmount(amount));
      } else if bytes + amount > maxBytes {
        return Fail(SizeLimitReached(bytes, maxBytes));
      }
      bytes := bytes + amount;
      r := Pass;
    }

    method CheckReadability(length: int, readable: int) returns (r: Outcome<LimitError>)
      ensures r.Fail? <==> enforcing && length > readable
      ensures r == Model().CheckReadability(length, readable)
    {
      if enforcing && length > readable {
        return Fail(CannotReadMore(length, readable));
      }
      r := Pass;
    }

    method EnterDepth() returns (r: Outcome<LimitError>)
      requires Valid()
      modifies this
      ensures Valid() && bytes == old(bytes)
      ensures enforcing ==> (r.Fail? <==> old(depth) >= maxDepth)
      ensures !enforcing ==> r.Pass?
      ensures depth == if enforcing && r.Pass? then old(depth) + 1 else old(depth)
      ensures r.Pass? ==> old(Model()).EnterDepth() == Ok(Model())
      ensures r.Fail? ==> old(Model()).EnterDepth() == Err(r.error) && Model() == old(Model())
    {
      if !enforcing {
        return Pass;
      }
      if depth >= maxDepth {
        return Fail(DepthLimitReached(depth, maxDepth));
      }
      depth := depth + 1;
      r := Pass;
    }

    method ExitDepth() returns (r: Outcome<LimitError>)
      requires Valid()
      modifies this
      ensures Valid() && bytes == old(bytes)
      ensures enforcing ==> (r.Fail? <==> old(depth) <= 0)
      ensures !enforcing ==> r.Pass?
      ensures depth == if enforcing && r.Pass? then old(depth) - 1 else old(depth)
      ensures r.Pass? ==> old(Model()).ExitDepth() == Ok(Model())
      ensures r.Fail? ==> old(Model()).ExitDepth() == Err(r.error) && Model() == old(Model())
    {
      if !enforcing {
        return Pass;
      }
      if depth <= 0 {
        return Fail(TopLevelExit);
      }
      depth := depth - 1;
      r := Pass;
    }
  }
}
