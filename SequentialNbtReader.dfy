/**
 * The streaming NBT reader (`SequentialNBTReader`): `deserializeTag` reads
 * a scalar root eagerly but hands back a COMPOUND or LIST root as a cursor
 * that reads its entries one at a time, on demand. A cursor that returns a
 * nested COMPOUND or LIST returns another cursor over the same stream, so
 * the cursors in use form a chain: the root, the cursor it returned last,
 * the one that returned last, and so on. Only the innermost one may read.
 *
 * The model keeps every cursor ever created in `cursors` (a cursor's
 * handle is its index) and the unfinished ones, outermost first, in
 * `open`. A cursor finishes when it has no more elements; it then tells its
 * parent, which may finish in turn (`runCompleted` and the `onComplete`
 * callback). Each operation is a function from the reader's state to its
 * result and the new state; an exception thrown by the stream or the
 * limiter leaves the reader `Broken`.
 */
module SequentialNbtReader {
  import opened Wrappers
  import opened JavaInts
  import opened ModifiedUtf8
  import opened NbtLimiter
  import opened NbtTypes
  import D = DefaultNbtSerializer
  import S = TagSkips

  /** What the COMPOUND cursor's constructor charges (the same figure as `D.COMPOUND_COST`). */
  const COMPOUND_CURSOR_COST: int := 48
  /** What the LIST cursor's constructor charges before the element references (one more than `D.LIST_COST`). */
  const LIST_CURSOR_COST: int := 37
  /** What every entry a COMPOUND cursor returns, skips or reads is charged, whether or not its name is new. */
  const ENTRY_CURSOR_COST: int := 36

  /**
   * A cursor's own fields. A COMPOUND cursor remembers the type byte it has
   * read ahead (`nextType`, meaningful once `hasReadType`); a LIST cursor
   * its element kind and how many elements are left.
   */
  datatype Cursor =
    | CompoundCursor(nextType: Kind, hasReadType: bool)
    | ListCursor(listType: Kind, remaining: int)

  /** The stream position, the limiter, every cursor by handle, and the unfinished ones, outermost first. */
  datatype State = State(pos: nat, budget: Budget, cursors: seq<Cursor>, open: seq<nat>)

  /** A reader that an exception interrupted refuses every further operation. */
  datatype Reader = Ready(st: State) | Broken(error: Error)

  /** What `next` returns: a value read eagerly, or the handle of a nested cursor. */
  datatype Item = Value(tag: Tag) | Nested(id: nat)

  /** An operation's result and the reader after it. */
  datatype Step<T> = Step(result: Result<T, Error>, after: Reader)

  function Fail<T>(e: Error): Step<T>
  {
    Step(Err(e), Broken(e))
  }

  /** The result `v`, unless completing the operation broke the reader. */
  function Settle<T>(v: T, r: Reader): Step<T>
  {
    match r
    case Broken(e) => Step(Err(e), r)
    case Ready(_) => Step(Ok(v), r)
  }

  predicate IdsOk(st: State)
  {
    forall i :: 0 <= i < |st.open| ==> st.open[i] < |st.cursors|
  }

  predicate Fits(data: seq<u8>, st: State)
  {
    st.pos <= |data| && IdsOk(st)
  }

  /** The innermost unfinished cursor: the only one that may read. */
  function Top(st: State): nat
    requires |st.open| > 0
  {
    st.open[|st.open| - 1]
  }

  function Pop(st: State): State
    requires |st.open| > 0
  {
    State(st.pos, st.budget, st.cursors, st.open[..|st.open| - 1])
  }

  /**
   * `checkReadable`, as intended: a cursor may not advance while a cursor it
   * returned is unfinished, that is, while it is open but not innermost.
   * (The source asks the cursor returned last for `hasNext` instead; see
   * `AsWrittenPasses`.)
   */
  predicate Blocked(st: State, c: nat)
  {
    c in st.open && c != Top(st)
  }

  /** A cursor keeps its kind and a LIST cursor its element kind. */
  predicate SameKind(a: Cursor, b: Cursor)
  {
    if a.ListCursor? then b.ListCursor? && b.listType == a.listType else b.CompoundCursor?
  }

  /** `st1` has every cursor of `st`, each of the same kind. */
  predicate SameKinds(st: State, st1: State)
  {
    |st.cursors| <= |st1.cursors|
    && forall i :: 0 <= i < |st.cursors| ==> SameKind(st.cursors[i], st1.cursors[i])
  }

  /** `st1` has every cursor of `st`, and every LIST cursor of `st` unchanged. */
  predicate ListsKept(st: State, st1: State)
  {
    |st.cursors| <= |st1.cursors|
    && forall i :: 0 <= i < |st.cursors| && st.cursors[i].ListCursor? ==> st1.cursors[i] == st.cursors[i]
  }

  /**
   * `runCompleted` on the innermost cursor, and through `onComplete` on each
   * parent in turn: a cursor with no more elements finishes and its parent
   * is asked the same question. A COMPOUND cursor answers by reading the
   * next type byte if it has not read it yet; a LIST cursor by its count.
   */
  function RunCompleted(data: seq<u8>, st: State): (r: Reader)
    requires Fits(data, st)
    decreases |st.open|
    ensures r.Ready? ==> Fits(data, r.st) && st.pos <= r.st.pos && r.st.budget == st.budget && |r.st.open| <= |st.open|
    ensures r.Ready? ==> SameKinds(st, r.st) && ListsKept(st, r.st) && |r.st.cursors| == |st.cursors|
    ensures r.Ready? ==> r.st.open == st.open[..|r.st.open|]
  {
    if |st.open| == 0 then Ready(st)
    else
      var t := Top(st);
      match st.cursors[t]
      case ListCursor(_, remaining) =>
        if remaining <= 0 then RunCompleted(data, Pop(st)) else Ready(st)
      case CompoundCursor(nextType, hasReadType) =>
        if hasReadType then
          if nextType == END then RunCompleted(data, Pop(st)) else Ready(st)
        else
          match D.ReadTagType(data, st.pos, st.budget)
          case Failed(e, _) => Broken(e)
          case Parsed(k, p, _) =>
            var st1 := State(p, st.budget, st.cursors[t := CompoundCursor(k, true)], st.open);
            if k == END then RunCompleted(data, Pop(st1)) else Ready(st1)
  }

  /** The COMPOUND cursor's constructor: the charge, then `runCompleted` (which reads the first type byte). */
  function NewCompound(data: seq<u8>, st: State): (r: Step<Item>)
    requires Fits(data, st)
    ensures r.result.Ok? <==> r.after.Ready?
    ensures r.after.Ready? ==> r.result.value == Nested(|st.cursors|) && Fits(data, r.after.st) && st.pos <= r.after.st.pos
    ensures r.after.Ready? ==> SameKinds(st, r.after.st) && ListsKept(st, r.after.st) && |r.after.st.cursors| == |st.cursors| + 1
  {
    match D.Charge(st.budget, COMPOUND_CURSOR_COST)
    case Err(e) => Fail(e)
    case Ok(b1) =>
      var id := |st.cursors|;
      Settle(Nested(id), RunCompleted(data, State(st.pos, b1, st.cursors + [CompoundCursor(END, false)], st.open + [id])))
  }

  /**
   * The LIST cursor's constructor: the charge, the element kind, the count,
   * the charge for the element references (`4 * count`, here without
   * 32-bit wrap-around), then `runCompleted`.
   */
  function NewList(data: seq<u8>, st: State): (r: Step<Item>)
    requires Fits(data, st)
    ensures r.result.Ok? <==> r.after.Ready?
    ensures r.after.Ready? ==> r.result.value == Nested(|st.cursors|) && Fits(data, r.after.st) && st.pos <= r.after.st.pos
    ensures r.after.Ready? ==> SameKinds(st, r.after.st) && ListsKept(st, r.after.st) && |r.after.st.cursors| == |st.cursors| + 1
  {
    match D.Charge(st.budget, LIST_CURSOR_COST)
    case Err(e) => Fail(e)
    case Ok(b1) =>
      match D.ReadTagType(data, st.pos, b1)
      case Failed(e, _) => Fail(e)
      case Parsed(k, p, _) =>
        match S.ReadInt(data, p, b1)
        case Failed(e, _) => Fail(e)
        case Parsed(n, q, _) =>
          match D.Charge(b1, D.ListRefCharge(n))
          case Err(e) => Fail(e)
          case Ok(b2) =>
            var id := |st.cursors|;
            Settle(Nested(id), RunCompleted(data, State(q, b2, st.cursors + [ListCursor(k, n)], st.open + [id])))
  }

  /**
   * One element of kind `k` for the innermost cursor: a new cursor for a
   * COMPOUND or LIST, otherwise the value read eagerly followed by
   * `runCompleted`.
   */
  function ReadChild(data: seq<u8>, st: State, k: Kind): (r: Step<Item>)
    requires Fits(data, st)
    ensures r.result.Ok? <==> r.after.Ready?
    ensures r.after.Ready? ==> Fits(data, r.after.st) && st.pos <= r.after.st.pos
    ensures r.after.Ready? ==> SameKinds(st, r.after.st) && ListsKept(st, r.after.st)
  {
    if k == COMPOUND then NewCompound(data, st)
    else if k == LIST then NewList(data, st)
    else
      match D.ReadPayload(k, data, st.pos, st.budget)
      case Failed(e, _) => Fail(e)
      case Parsed(t, p, b1) => Settle(Value(t), RunCompleted(data, State(p, b1, st.cursors, st.open)))
  }

  /** `deserializeTag`: the root's type, the name skipped if the root is named, then the root itself. */
  function DeserializeTag(data: seq<u8>, b: Budget, named: bool): (r: Step<Item>)
    ensures r.result.Ok? <==> r.after.Ready?
    ensures r.after.Ready? ==> Fits(data, r.after.st)
  {
    match D.ReadTagType(data, 0, b)
    case Failed(e, _) => Fail(e)
    case Parsed(k, p, _) =>
      if !named then ReadChild(data, State(p, b, [], []), k)
      else
        match S.ReadUnsignedShort(data, p, b)
        case Failed(e, _) => Fail(e)
        case Parsed(len, q, _) => ReadChild(data, State(S.SkipBytes(data, q, len), b, [], []), k)
  }

  /** COMPOUND `hasNext`: the check, then the next type byte unless it was read already. */
  function CompoundHasNext(data: seq<u8>, st: State, c: nat): (r: Step<bool>)
    requires Fits(data, st) && c < |st.cursors| && st.cursors[c].CompoundCursor?
    ensures Blocked(st, c) ==> r == Step(Err(IllegalState), Ready(st))
    ensures !Blocked(st, c) ==> (r.result.Ok? <==> r.after.Ready?)
    ensures r.after.Ready? ==>
      Fits(data, r.after.st) && st.pos <= r.after.st.pos && r.after.st.budget == st.budget && r.after.st.open == st.open
      && SameKinds(st, r.after.st) && ListsKept(st, r.after.st) && |r.after.st.cursors| == |st.cursors|
    ensures r.result.Ok? ==>
      var f := r.after.st.cursors[c];
      f.hasReadType && r.result.value == (f.nextType != END)
  {
    if Blocked(st, c) then Step(Err(IllegalState), Ready(st))
    else
      var f := st.cursors[c];
      if f.hasReadType then Step(Ok(f.nextType != END), Ready(st))
      else
        match D.ReadTagType(data, st.pos, st.budget)
        case Failed(e, _) => Fail(e)
        case Parsed(k, p, _) => Step(Ok(k != END), Ready(State(p, st.budget, st.cursors[c := CompoundCursor(k, true)], st.open)))
  }

  /**
   * COMPOUND `next`: `hasNext` (else "no more elements"), the entry's name,
   * the element, then the entry charge.
   */
  function CompoundNext(data: seq<u8>, st: State, c: nat): (r: Step<(JString, Item)>)
    requires Fits(data, st) && c < |st.cursors| && st.cursors[c].CompoundCursor?
    ensures Blocked(st, c) ==> r == Step(Err(IllegalState), Ready(st))
  {
    var h := CompoundHasNext(data, st, c);
    if h.result.Err? then Step(Err(h.result.error), h.after)
    else if !h.result.value then Step(Err(NoMoreElements), h.after)
    else
      var st1 := h.after.st;
      var k := st1.cursors[c].nextType;
      match D.ReadString(data, st1.pos, st1.budget)
      case Failed(e, _) => Fail(e)
      case Parsed(name, p, b1) =>
        var s := ReadChild(data, State(p, b1, st1.cursors[c := CompoundCursor(k, false)], st1.open), k);
        if s.result.Err? then Step(Err(s.result.error), s.after)
        else
          match D.Charge(s.after.st.budget, ENTRY_CURSOR_COST)
          case Err(e) => Fail(e)
          case Ok(b2) => Step(Ok((name, s.result.value)), Ready(State(s.after.st.pos, b2, s.after.st.cursors, s.after.st.open)))
  }

  /** LIST `hasNext`: whether elements remain (with no check and no read). */
  function ListHasNext(st: State, c: nat): (r: bool)
    requires c < |st.cursors| && st.cursors[c].ListCursor?
  {
    st.cursors[c].remaining > 0
  }

  /** LIST `next`: the check, "no more elements" when none remain, otherwise one fewer and the element. */
  function ListNext(data: seq<u8>, st: State, c: nat): (r: Step<Item>)
    requires Fits(data, st) && c < |st.cursors| && st.cursors[c].ListCursor?
    ensures Blocked(st, c) ==> r == Step(Err(IllegalState), Ready(st))
  {
    if Blocked(st, c) then Step(Err(IllegalState), Ready(st))
    else
      var f := st.cursors[c];
      if f.remaining <= 0 then Step(Err(NoMoreElements), Ready(st))
      else ReadChild(data, State(st.pos, st.budget, st.cursors[c := ListCursor(f.listType, f.remaining - 1)], st.open), f.listType)
  }

  /** Skipping one entry after its type byte: the name by its length, the value by the skip table, and the entry charge. */
  function SkipEntry(k: Kind, data: seq<u8>, pos: nat, b: Budget): (r: S.Skipped)
    requires pos <= |data|
    ensures r.Parsed? ==> pos + 2 <= r.pos <= |data|
  {
    match S.ReadUnsignedShort(data, pos, b)
    case Failed(e, b1) => D.Failed(e, b1)
    case Parsed(len, p, _) =>
      match S.Skip(k, data, S.SkipBytes(data, p, len), b)
      case Failed(e, b1) => D.Failed(e, b1)
      case Parsed(_, q, b1) =>
        match D.Charge(b1, ENTRY_CURSOR_COST)
        case Err(e) => D.Failed(e, b1)
        case Ok(b2) => D.Parsed((), q, b2)
  }

  /** COMPOUND `skipOne`: the check, nothing when no entry remains, otherwise one entry skipped and `runCompleted`. */
  function CompoundSkipOne(data: seq<u8>, st: State, c: nat): (r: Step<()>)
    requires Fits(data, st) && c < |st.cursors| && st.cursors[c].CompoundCursor?
    ensures Blocked(st, c) ==> r == Step(Err(IllegalState), Ready(st))
  {
    var h := CompoundHasNext(data, st, c);
    if h.result.Err? then Step(Err(h.result.error), h.after)
    else if !h.result.value then Step(Ok(()), h.after)
    else
      var st1 := h.after.st;
      var k := st1.cursors[c].nextType;
      match SkipEntry(k, data, st1.pos, st1.budget)
      case Failed(e, _) => Fail(e)
      case Parsed(_, q, b1) => Settle((), RunCompleted(data, State(q, b1, st1.cursors[c := CompoundCursor(k, false)], st1.open)))
  }

  /** LIST `skipOne`: the check, nothing when no element remains, otherwise one element skipped, one fewer, and `runCompleted`. */
  function ListSkipOne(data: seq<u8>, st: State, c: nat): (r: Step<()>)
    requires Fits(data, st) && c < |st.cursors| && st.cursors[c].ListCursor?
    ensures Blocked(st, c) ==> r == Step(Err(IllegalState), Ready(st))
  {
    if Blocked(st, c) then Step(Err(IllegalState), Ready(st))
    else
      var f := st.cursors[c];
      if f.remaining <= 0 then Step(Ok(()), Ready(st))
      else
        match S.Skip(f.listType, data, st.pos, st.budget)
        case Failed(e, _) => Fail(e)
        case Parsed(_, q, b1) => Settle((), RunCompleted(data, State(q, b1, st.cursors[c := ListCursor(f.listType, f.remaining - 1)], st.open)))
  }

  /**
   * `skip` on the innermost cursor, once the cursor it returned last has
   * been skipped: nothing if it has no more elements; otherwise a COMPOUND
   * cursor skips the pending entry and then the rest of the compound with
   * the COMPOUND skipper, and a LIST cursor skips its remaining elements;
   * either way the cursor is then finished and `runCompleted` runs.
   */
  function SkipTop(data: seq<u8>, st: State): (r: Reader)
    requires Fits(data, st) && |st.open| > 0
    ensures r.Ready? ==> Fits(data, r.st) && st.pos <= r.st.pos && SameKinds(st, r.st) && |r.st.cursors| == |st.cursors| && |r.st.open| <= |st.open|
    ensures r.Ready? ==> forall i :: 0 <= i < |st.cursors| && i != Top(st) && st.cursors[i].ListCursor? ==> r.st.cursors[i] == st.cursors[i]
  {
    var t := Top(st);
    match st.cursors[t]
    case ListCursor(k, remaining) =>
      if remaining <= 0 then Ready(st)
      else
        (match S.SkipItems(k, remaining, data, st.pos, st.budget)
         case Failed(e, _) => Broken(e)
         case Parsed(_, p, b1) => RunCompleted(data, State(p, b1, st.cursors[t := ListCursor(k, 0)], st.open)))
    case CompoundCursor(_, _) =>
      var h := CompoundHasNext(data, st, t);
      if h.result.Err? || !h.result.value then h.after
      else SkipCompoundRest(data, h.after.st, t)
  }

  /** The rest of a COMPOUND cursor's entries, from the pending one on. */
  function SkipCompoundRest(data: seq<u8>, st: State, t: nat): (r: Reader)
    requires Fits(data, st) && t < |st.cursors| && st.cursors[t].CompoundCursor?
    ensures r.Ready? ==> Fits(data, r.st) && st.pos <= r.st.pos && SameKinds(st, r.st) && |r.st.cursors| == |st.cursors| && |r.st.open| <= |st.open|
    ensures r.Ready? ==> forall i :: 0 <= i < |st.cursors| && i != t && st.cursors[i].ListCursor? ==> r.st.cursors[i] == st.cursors[i]
  {
    match SkipEntry(st.cursors[t].nextType, data, st.pos, st.budget)
    case Failed(e, _) => Broken(e)
    case Parsed(_, q, b1) =>
      match S.SkipCompound(data, q, b1)
      case Failed(e, _) => Broken(e)
      case Parsed(_, q2, b2) => RunCompleted(data, State(q2, b2, st.cursors[t := CompoundCursor(END, true)], st.open))
  }

  /**
   * The recursive `lastRead.skip()` chain of `skip` and `readFully`: the
   * innermost cursor is skipped until `c` finishes (`inclusive`) or is the
   * innermost (otherwise). It stops early only if a level leaves the chain
   * as it was, which `Wf` rules out.
   */
  function SkipAbove(data: seq<u8>, st: State, c: nat, inclusive: bool): (r: Reader)
    requires Fits(data, st)
    decreases |st.open|
    ensures r.Ready? ==> Fits(data, r.st) && st.pos <= r.st.pos && SameKinds(st, r.st) && |r.st.cursors| == |st.cursors|
    ensures r.Ready? && !inclusive && c < |st.cursors| && st.cursors[c].ListCursor? ==> r.st.cursors[c] == st.cursors[c]
  {
    if c !in st.open || (!inclusive && Top(st) == c) then Ready(st)
    else
      match SkipTop(data, st)
      case Broken(e) => Broken(e)
      case Ready(st1) => if |st1.open| < |st.open| then SkipAbove(data, st1, c, inclusive) else Ready(st1)
  }

  /** `skip` (either kind): the rest of `c` and of everything it returned, skipped. */
  function Skip(data: seq<u8>, st: State, c: nat): (r: Step<()>)
    requires Fits(data, st)
  {
    Settle((), SkipAbove(data, st, c, true))
  }

  /**
   * The loop of COMPOUND `readFully` after the first type byte: name and
   * value, the entry charge, the entry set (the last value under a name
   * wins), then the next type byte, until END.
   */
  function ReadRestEntries(acc: seq<Entry>, k: Kind, data: seq<u8>, pos: nat, b: Budget): (r: D.Parsed<seq<Entry>>)
    requires pos <= |data|
    decreases |data| - pos
    ensures r.Parsed? ==> pos < r.pos <= |data|
  {
    match D.ReadEntry(k, data, pos, b)
    case Failed(e, b1) => D.Failed(e, b1)
    case Parsed(e, p, b1) =>
      match D.Charge(b1, ENTRY_CURSOR_COST)
      case Err(err) => D.Failed(err, b1)
      case Ok(b2) =>
        match D.ReadTagType(data, p, b2)
        case Failed(err, b3) => D.Failed(err, b3)
        case Parsed(k1, q, _) =>
          if k1 == END then D.Parsed(SetTag(acc, e.name, e.tag), q, b2)
          else ReadRestEntries(SetTag(acc, e.name, e.tag), k1, data, q, b2)
  }

  /**
   * COMPOUND `readFully`: what `c` returned last is skipped; then an empty
   * compound if no entry remains, otherwise every remaining entry read
   * eagerly, and the cursor finishes.
   */
  function CompoundReadFully(data: seq<u8>, st: State, c: nat): (r: Step<Tag>)
    requires Fits(data, st) && c < |st.cursors| && st.cursors[c].CompoundCursor?
  {
    match SkipAbove(data, st, c, false)
    case Broken(e) => Fail(e)
    case Ready(st1) =>
      var h := CompoundHasNext(data, st1, c);
      if h.result.Err? then Step(Err(h.result.error), h.after)
      else if !h.result.value then Step(Ok(Compound([])), h.after)
      else
        var st2 := h.after.st;
        match ReadRestEntries([], st2.cursors[c].nextType, data, st2.pos, st2.budget)
        case Failed(e, _) => Fail(e)
        case Parsed(es, p, b1) => Settle(Compound(es), RunCompleted(data, State(p, b1, st2.cursors[c := CompoundCursor(END, true)], st2.open)))
  }

  /**
   * LIST `readFully`: what `c` returned last is skipped; then an empty list
   * if no element remains, otherwise the remaining elements read eagerly,
   * and the cursor finishes.
   */
  function ListReadFully(data: seq<u8>, st: State, c: nat): (r: Step<Tag>)
    requires Fits(data, st) && c < |st.cursors| && st.cursors[c].ListCursor?
  {
    match SkipAbove(data, st, c, false)
    case Broken(e) => Fail(e)
    case Ready(st1) =>
      var f := st1.cursors[c];
      if f.remaining <= 0 then Step(Ok(List(f.listType, [])), Ready(st1))
      else
        match D.ReadElems(f.listType, f.remaining, [], data, st1.pos, st1.budget)
        case Failed(e, _) => Fail(e)
        case Parsed(items, p, b1) => Settle(List(f.listType, items), RunCompleted(data, State(p, b1, st1.cursors[c := ListCursor(f.listType, 0)], st1.open)))
  }

  // The shape of the reader between operations

  /** An unfinished cursor that has handed out a cursor still open: a COMPOUND has not read past it, a LIST counts it. */
  predicate Waiting(f: Cursor)
  {
    match f
    case CompoundCursor(_, hasReadType) => !hasReadType
    case ListCursor(_, remaining) => remaining >= 0
  }

  /** The innermost cursor between operations: it has an element to give. */
  predicate Live(f: Cursor)
  {
    match f
    case CompoundCursor(nextType, hasReadType) => hasReadType && nextType != END
    case ListCursor(_, remaining) => remaining > 0
  }

  /** A finished cursor: END read, or no element left. */
  predicate Finished(f: Cursor)
  {
    match f
    case CompoundCursor(nextType, hasReadType) => hasReadType && nextType == END
    case ListCursor(_, remaining) => remaining <= 0
  }

  predicate Increasing(s: seq<nat>)
  {
    forall i, j :: 0 <= i < j < |s| ==> s[i] < s[j]
  }

  /**
   * The chain of open cursors is ordered by creation; every open cursor but
   * the innermost is waiting for the one it handed out; every other cursor
   * is finished. The innermost is not constrained: `runCompleted` settles it.
   */
  predicate Settling(data: seq<u8>, st: State)
  {
    Fits(data, st) && Increasing(st.open)
    && (forall i :: 0 <= i < |st.open| - 1 ==> Waiting(st.cursors[st.open[i]]))
    && (forall id :: 0 <= id < |st.cursors| && id !in st.open ==> Finished(st.cursors[id]))
  }

  /** A state about to hand out one element: the innermost cursor is waiting too. */
  predicate Parked(data: seq<u8>, st: State)
  {
    Settling(data, st) && (|st.open| > 0 ==> Waiting(st.cursors[Top(st)]))
  }

  /** The reader between operations: settled, with a live innermost cursor. */
  predicate Wf(data: seq<u8>, st: State)
  {
    Settling(data, st) && (|st.open| > 0 ==> Live(st.cursors[Top(st)]))
  }

  lemma PopSettles(data: seq<u8>, st: State)
    requires Settling(data, st) && |st.open| > 0 && Finished(st.cursors[Top(st)])
    ensures Settling(data, Pop(st))
  {
    var st1 := Pop(st);
    forall id | 0 <= id < |st1.cursors| && id !in st1.open
      ensures Finished(st1.cursors[id])
    {
      assert st.open == st1.open + [Top(st)];
    }
  }

  lemma UpdateTopSettles(data: seq<u8>, st: State, p: nat, b: Budget, f: Cursor)
    requires Settling(data, st) && |st.open| > 0 && p <= |data|
    ensures Settling(data, State(p, b, st.cursors[Top(st) := f], st.open))
  {
    var t := Top(st);
    var st1 := State(p, b, st.cursors[t := f], st.open);
    forall i | 0 <= i < |st.open| - 1
      ensures Waiting(st1.cursors[st1.open[i]])
    {
      assert st.open[i] < t;
    }
  }

  lemma PushSettles(data: seq<u8>, st: State, p: nat, b: Budget, f: Cursor)
    requires Parked(data, st) && p <= |data|
    ensures Settling(data, State(p, b, st.cursors + [f], st.open + [|st.cursors|]))
  {
    var st1 := State(p, b, st.cursors + [f], st.open + [|st.cursors|]);
    forall i, j | 0 <= i < j < |st1.open|
      ensures st1.open[i] < st1.open[j]
    {
      if j == |st.open| {
        assert st1.open[i] == st.open[i];
      }
    }
    forall i | 0 <= i < |st1.open| - 1
      ensures Waiting(st1.cursors[st1.open[i]])
    {
      assert st1.open[i] == st.open[i];
    }
    forall id | 0 <= id < |st1.cursors| && id !in st1.open
      ensures Finished(st1.cursors[id])
    {
      assert id != |st.cursors|;
      assert id !in st.open;
    }
  }

  /** `runCompleted` leaves the reader between operations, or broken. */
  lemma {:induction false} RunCompletedSettles(data: seq<u8>, st: State)
    requires Settling(data, st)
    ensures RunCompleted(data, st).Ready? ==> Wf(data, RunCompleted(data, st).st)
    decreases |st.open|
  {
    if |st.open| > 0 {
      var t := Top(st);
      match st.cursors[t]
      case ListCursor(_, remaining) =>
        if remaining <= 0 {
          PopSettles(data, st);
          RunCompletedSettles(data, Pop(st));
        }
      case CompoundCursor(nextType, hasReadType) =>
        if hasReadType {
          if nextType == END {
            PopSettles(data, st);
            RunCompletedSettles(data, Pop(st));
          }
        } else {
          match D.ReadTagType(data, st.pos, st.budget)
          case Failed(_, _) =>
          case Parsed(k, p, _) =>
            var st1 := State(p, st.budget, st.cursors[t := CompoundCursor(k, true)], st.open);
            UpdateTopSettles(data, st, p, st.budget, CompoundCursor(k, true));
            if k == END {
              PopSettles(data, st1);
              RunCompletedSettles(data, Pop(st1));
            }
        }
    }
  }

  /** When the innermost cursor is finished, `runCompleted` closes it at least. */
  lemma RunCompletedCloses(data: seq<u8>, st: State)
    requires Fits(data, st) && |st.open| > 0 && Finished(st.cursors[Top(st)])
    ensures RunCompleted(data, st).Ready? ==> |RunCompleted(data, st).st.open| < |st.open|
  {
    assert RunCompleted(data, st) == RunCompleted(data, Pop(st));
  }

  lemma WfAnyBudget(data: seq<u8>, st: State, b: Budget)
    requires Wf(data, st)
    ensures Wf(data, State(st.pos, b, st.cursors, st.open))
  {
  }

  /** Handing out an element from a parked state leaves the reader between operations, or broken. */
  lemma ReadChildWf(data: seq<u8>, st: State, k: Kind)
    requires Parked(data, st)
    ensures ReadChild(data, st, k).after.Ready? ==> Wf(data, ReadChild(data, st, k).after.st)
  {
    if k == COMPOUND {
      match D.Charge(st.budget, COMPOUND_CURSOR_COST)
      case Err(_) =>
      case Ok(b1) =>
        PushSettles(data, st, st.pos, b1, CompoundCursor(END, false));
        RunCompletedSettles(data, State(st.pos, b1, st.cursors + [CompoundCursor(END, false)], st.open + [|st.cursors|]));
    } else if k == LIST {
      match D.Charge(st.budget, LIST_CURSOR_COST)
      case Err(_) =>
      case Ok(b1) =>
        match D.ReadTagType(data, st.pos, b1)
        case Failed(_, _) =>
        case Parsed(lt, p, _) =>
          match S.ReadInt(data, p, b1)
          case Failed(_, _) =>
          case Parsed(n, q, _) =>
            match D.Charge(b1, D.ListRefCharge(n))
            case Err(_) =>
            case Ok(b2) =>
              PushSettles(data, st, q, b2, ListCursor(lt, n));
              RunCompletedSettles(data, State(q, b2, st.cursors + [ListCursor(lt, n)], st.open + [|st.cursors|]));
    } else {
      match D.ReadPayload(k, data, st.pos, st.budget)
      case Failed(_, _) =>
      case Parsed(_, p, b1) =>
        RunCompletedSettles(data, State(p, b1, st.cursors, st.open));
    }
  }

  /**
   * Between operations `hasNext` on a COMPOUND cursor that may advance reads
   * nothing and changes nothing: it answers whether the cursor is unfinished.
   */
  lemma CompoundHasNextQuiet(data: seq<u8>, st: State, c: nat)
    requires Wf(data, st) && c < |st.cursors| && st.cursors[c].CompoundCursor? && !Blocked(st, c)
    ensures CompoundHasNext(data, st, c) == Step(Ok(c in st.open), Ready(st))
  {
  }

  /** Between operations, LIST `hasNext` on a cursor that may advance answers whether it is unfinished. */
  lemma ListHasNextIsOpen(data: seq<u8>, st: State, c: nat)
    requires Wf(data, st) && c < |st.cursors| && st.cursors[c].ListCursor? && !Blocked(st, c)
    ensures ListHasNext(st, c) == (c in st.open)
  {
  }

  /** Asking a COMPOUND cursor `hasNext` twice reads at most once: the second answer is the first, and nothing changes. */
  lemma CompoundHasNextIdempotent(data: seq<u8>, st: State, c: nat)
    requires Fits(data, st) && c < |st.cursors| && st.cursors[c].CompoundCursor?
    ensures var h := CompoundHasNext(data, st, c);
      h.after.Ready? ==> CompoundHasNext(data, h.after.st, c) == h
  {
  }

  lemma CompoundNextWf(data: seq<u8>, st: State, c: nat)
    requires Wf(data, st) && c < |st.cursors| && st.cursors[c].CompoundCursor?
    ensures CompoundNext(data, st, c).after.Ready? ==> Wf(data, CompoundNext(data, st, c).after.st)
  {
    if !Blocked(st, c) {
      CompoundHasNextQuiet(data, st, c);
      if c in st.open {
        var k := st.cursors[c].nextType;
        match D.ReadString(data, st.pos, st.budget)
        case Failed(_, _) =>
        case Parsed(_, p, b1) =>
          var st2 := State(p, b1, st.cursors[c := CompoundCursor(k, false)], st.open);
          UpdateTopSettles(data, st, p, b1, CompoundCursor(k, false));
          ReadChildWf(data, st2, k);
          var s := ReadChild(data, st2, k);
          if s.after.Ready? {
            match D.Charge(s.after.st.budget, ENTRY_CURSOR_COST)
            case Err(_) =>
            case Ok(b2) => WfAnyBudget(data, s.after.st, b2);
          }
      }
    }
  }

  lemma ListNextWf(data: seq<u8>, st: State, c: nat)
    requires Wf(data, st) && c < |st.cursors| && st.cursors[c].ListCursor?
    ensures ListNext(data, st, c).after.Ready? ==> Wf(data, ListNext(data, st, c).after.st)
  {
    var f := st.cursors[c];
    if !Blocked(st, c) && f.remaining > 0 {
      var g := ListCursor(f.listType, f.remaining - 1);
      UpdateTopSettles(data, st, st.pos, st.budget, g);
      ReadChildWf(data, State(st.pos, st.budget, st.cursors[c := g], st.open), f.listType);
    }
  }

  lemma CompoundSkipOneWf(data: seq<u8>, st: State, c: nat)
    requires Wf(data, st) && c < |st.cursors| && st.cursors[c].CompoundCursor?
    ensures CompoundSkipOne(data, st, c).after.Ready? ==> Wf(data, CompoundSkipOne(data, st, c).after.st)
  {
    if !Blocked(st, c) {
      CompoundHasNextQuiet(data, st, c);
      if c in st.open {
        var k := st.cursors[c].nextType;
        match SkipEntry(k, data, st.pos, st.budget)
        case Failed(_, _) =>
        case Parsed(_, q, b1) =>
          UpdateTopSettles(data, st, q, b1, CompoundCursor(k, false));
          RunCompletedSettles(data, State(q, b1, st.cursors[c := CompoundCursor(k, false)], st.open));
      }
    }
  }

  lemma ListSkipOneWf(data: seq<u8>, st: State, c: nat)
    requires Wf(data, st) && c < |st.cursors| && st.cursors[c].ListCursor?
    ensures ListSkipOne(data, st, c).after.Ready? ==> Wf(data, ListSkipOne(data, st, c).after.st)
  {
    var f := st.cursors[c];
    if !Blocked(st, c) && f.remaining > 0 {
      match S.Skip(f.listType, data, st.pos, st.budget)
      case Failed(_, _) =>
      case Parsed(_, q, b1) =>
        var g := ListCursor(f.listType, f.remaining - 1);
        UpdateTopSettles(data, st, q, b1, g);
        RunCompletedSettles(data, State(q, b1, st.cursors[c := g], st.open));
    }
  }

  /** Skipping the innermost cursor finishes it: the chain is shorter and the reader is between operations. */
  lemma SkipTopWf(data: seq<u8>, st: State)
    requires Wf(data, st) && |st.open| > 0
    ensures SkipTop(data, st).Ready? ==> Wf(data, SkipTop(data, st).st) && |SkipTop(data, st).st.open| < |st.open|
  {
    var t := Top(st);
    match st.cursors[t]
    case ListCursor(k, remaining) =>
      match S.SkipItems(k, remaining, data, st.pos, st.budget) {
        case Failed(_, _) =>
        case Parsed(_, p, b1) =>
          var st1 := State(p, b1, st.cursors[t := ListCursor(k, 0)], st.open);
          UpdateTopSettles(data, st, p, b1, ListCursor(k, 0));
          RunCompletedSettles(data, st1);
          RunCompletedCloses(data, st1);
      }
    case CompoundCursor(nextType, _) =>
      CompoundHasNextQuiet(data, st, t);
      match SkipEntry(nextType, data, st.pos, st.budget)
      case Failed(_, _) =>
      case Parsed(_, q, b1) =>
        match S.SkipCompound(data, q, b1)
        case Failed(_, _) =>
        case Parsed(_, q2, b2) =>
          var st1 := State(q2, b2, st.cursors[t := CompoundCursor(END, true)], st.open);
          UpdateTopSettles(data, st, q2, b2, CompoundCursor(END, true));
          RunCompletedSettles(data, st1);
          RunCompletedCloses(data, st1);
  }

  /**
   * The `lastRead.skip()` chain ends with `c` finished (`inclusive`) or
   * free to advance (otherwise), and the reader between operations.
   */
  lemma {:induction false} SkipAboveWf(data: seq<u8>, st: State, c: nat, inclusive: bool)
    requires Wf(data, st)
    ensures var r := SkipAbove(data, st, c, inclusive);
      r.Ready? ==> Wf(data, r.st) && (if inclusive then c !in r.st.open else !Blocked(r.st, c))
    decreases |st.open|
  {
    if c in st.open && (inclusive || Top(st) != c) {
      SkipTopWf(data, st);
      match SkipTop(data, st)
      case Broken(_) =>
      case Ready(st1) => SkipAboveWf(data, st1, c, inclusive);
    }
  }

  /** Closing the innermost cursor and perhaps more: what is left is a prefix of the chain without it. */
  lemma PrefixDropsTop(open: seq<nat>, m: nat)
    requires Increasing(open) && m < |open|
    ensures open[|open| - 1] !in open[..m]
  {
  }

  /** `skip` leaves `c` finished and the reader between operations. */
  lemma SkipFinishes(data: seq<u8>, st: State, c: nat)
    requires Wf(data, st) && c < |st.cursors|
    ensures var r := Skip(data, st, c);
      r.result.Ok? ==> r.after.Ready? && Wf(data, r.after.st) && c !in r.after.st.open && Finished(r.after.st.cursors[c])
  {
    SkipAboveWf(data, st, c, true);
  }

  /** COMPOUND `readFully` leaves `c` finished and the reader between operations. */
  lemma CompoundReadFullyWf(data: seq<u8>, st: State, c: nat)
    requires Wf(data, st) && c < |st.cursors| && st.cursors[c].CompoundCursor?
    ensures var r := CompoundReadFully(data, st, c);
      (r.after.Ready? ==> Wf(data, r.after.st)) && (r.result.Ok? ==> r.after.Ready? && c !in r.after.st.open)
  {
    SkipAboveWf(data, st, c, false);
    match SkipAbove(data, st, c, false)
    case Broken(_) =>
    case Ready(st1) =>
      CompoundHasNextQuiet(data, st1, c);
      if c in st1.open {
        match ReadRestEntries([], st1.cursors[c].nextType, data, st1.pos, st1.budget)
        case Failed(_, _) =>
        case Parsed(_, p, b1) =>
          var st2 := State(p, b1, st1.cursors[c := CompoundCursor(END, true)], st1.open);
          UpdateTopSettles(data, st1, p, b1, CompoundCursor(END, true));
          RunCompletedSettles(data, st2);
          RunCompletedCloses(data, st2);
          var r2 := RunCompleted(data, st2);
          if r2.Ready? {
            PrefixDropsTop(st1.open, |r2.st.open|);
          }
      }
  }

  /** LIST `readFully` leaves `c` finished and the reader between operations. */
  lemma ListReadFullyWf(data: seq<u8>, st: State, c: nat)
    requires Wf(data, st) && c < |st.cursors| && st.cursors[c].ListCursor?
    ensures var r := ListReadFully(data, st, c);
      (r.after.Ready? ==> Wf(data, r.after.st)) && (r.result.Ok? ==> r.after.Ready? && c !in r.after.st.open)
  {
    SkipAboveWf(data, st, c, false);
    match SkipAbove(data, st, c, false)
    case Broken(_) =>
    case Ready(st1) =>
      var f := st1.cursors[c];
      if c in st1.open {
        match D.ReadElems(f.listType, f.remaining, [], data, st1.pos, st1.budget)
        case Failed(_, _) =>
        case Parsed(_, p, b1) =>
          var st2 := State(p, b1, st1.cursors[c := ListCursor(f.listType, 0)], st1.open);
          UpdateTopSettles(data, st1, p, b1, ListCursor(f.listType, 0));
          RunCompletedSettles(data, st2);
          RunCompletedCloses(data, st2);
          var r2 := RunCompleted(data, st2);
          if r2.Ready? {
            PrefixDropsTop(st1.open, |r2.st.open|);
          }
      }
  }

  /** The reader `deserializeTag` hands back is between operations. */
  lemma DeserializeTagWf(data: seq<u8>, b: Budget, named: bool)
    ensures var r := DeserializeTag(data, b, named);
      r.after.Ready? ==> Wf(data, r.after.st)
  {
    match D.ReadTagType(data, 0, b)
    case Failed(_, _) =>
    case Parsed(k, p, _) =>
      if !named {
        ReadChildWf(data, State(p, b, [], []), k);
      } else {
        match S.ReadUnsignedShort(data, p, b)
        case Failed(_, _) =>
        case Parsed(len, q, _) => ReadChildWf(data, State(S.SkipBytes(data, q, len), b, [], []), k);
      }
  }

  /** A finished COMPOUND cursor is inert: no next entry, and `skipOne`, `skip` and `readFully` do nothing. */
  lemma CompoundFinishedIsInert(data: seq<u8>, st: State, c: nat)
    requires Wf(data, st) && c < |st.cursors| && st.cursors[c].CompoundCursor? && c !in st.open
    ensures CompoundHasNext(data, st, c) == Step(Ok(false), Ready(st))
    ensures CompoundNext(data, st, c) == Step(Err(NoMoreElements), Ready(st))
    ensures CompoundSkipOne(data, st, c) == Step(Ok(()), Ready(st))
    ensures Skip(data, st, c) == Step(Ok(()), Ready(st))
    ensures CompoundReadFully(data, st, c) == Step(Ok(Compound([])), Ready(st))
  {
    CompoundHasNextQuiet(data, st, c);
  }

  /** A finished LIST cursor is inert: no next element, and `skipOne`, `skip` and `readFully` do nothing. */
  lemma ListFinishedIsInert(data: seq<u8>, st: State, c: nat)
    requires Wf(data, st) && c < |st.cursors| && st.cursors[c].ListCursor? && c !in st.open
    ensures !ListHasNext(st, c)
    ensures ListNext(data, st, c) == Step(Err(NoMoreElements), Ready(st))
    ensures ListSkipOne(data, st, c) == Step(Ok(()), Ready(st))
    ensures Skip(data, st, c) == Step(Ok(()), Ready(st))
    ensures ListReadFully(data, st, c) == Step(Ok(List(st.cursors[c].listType, [])), Ready(st))
  {
  }

  /** LIST `next` succeeds only with an element left, and leaves one fewer. */
  lemma ListNextCounts(data: seq<u8>, st: State, c: nat)
    requires Fits(data, st) && c < |st.cursors| && st.cursors[c].ListCursor?
    ensures var f, r := st.cursors[c], ListNext(data, st, c);
      r.result.Ok? ==> f.remaining > 0 && r.after.Ready? && r.after.st.cursors[c] == ListCursor(f.listType, f.remaining - 1)
  {
  }

  /** LIST `skipOne` leaves one element fewer, or does nothing when none is left. */
  lemma ListSkipOneCounts(data: seq<u8>, st: State, c: nat)
    requires Fits(data, st) && c < |st.cursors| && st.cursors[c].ListCursor?
    ensures var f, r := st.cursors[c], ListSkipOne(data, st, c);
      r.result.Ok? ==>
        r.after.Ready?
        && (f.remaining > 0 ==> r.after.st.cursors[c] == ListCursor(f.listType, f.remaining - 1))
        && (f.remaining <= 0 ==> r.after == Ready(st))
  {
  }

  /** LIST `readFully` gives as many elements as remained, each of the list's kind. */
  lemma ListReadFullyShape(data: seq<u8>, st: State, c: nat)
    requires Fits(data, st) && c < |st.cursors| && st.cursors[c].ListCursor?
    ensures var f, r := st.cursors[c], ListReadFully(data, st, c);
      r.result.Ok? ==>
        r.result.value.List? && r.result.value.elemKind == f.listType
        && |r.result.value.items| == (if f.remaining > 0 then f.remaining else 0)
        && forall i :: 0 <= i < |r.result.value.items| ==> r.result.value.items[i].Kind() == f.listType
  {
    match SkipAbove(data, st, c, false)
    case Broken(_) =>
    case Ready(st1) =>
      var g := st1.cursors[c];
      if g.remaining > 0 {
        D.ElemsShape(g.listType, g.remaining, [], data, st1.pos, st1.budget);
      }
  }

  /** The loop of COMPOUND `readFully` stops at the first failing read, with that read's error. */
  lemma RestFirstFails(acc: seq<Entry>, k: Kind, data: seq<u8>, pos: nat, b: Budget)
    requires pos <= |data| && D.ReadEntry(k, data, pos, b).Failed?
    ensures ReadRestEntries(acc, k, data, pos, b) == D.Failed(D.ReadEntry(k, data, pos, b).error, D.ReadEntry(k, data, pos, b).budget)
  {
  }

  lemma RestNextFails(acc: seq<Entry>, k: Kind, data: seq<u8>, pos: nat, e: Entry, p: nat, b: Budget, b1: Budget, b2: Budget)
    requires pos <= |data|
    requires D.ReadEntry(k, data, pos, b) == D.Parsed(e, p, b1)
    requires D.Charge(b1, ENTRY_CURSOR_COST) == Ok(b2)
    requires D.ReadTagType(data, p, b2).Failed?
    ensures ReadRestEntries(acc, k, data, pos, b) == D.Failed(D.ReadTagType(data, p, b2).error, b2)
  {
  }

  lemma RestEnds(acc: seq<Entry>, k: Kind, data: seq<u8>, pos: nat, e: Entry, p: nat, b: Budget, b1: Budget, b2: Budget, q: nat)
    requires pos <= |data|
    requires D.ReadEntry(k, data, pos, b) == D.Parsed(e, p, b1)
    requires D.Charge(b1, ENTRY_CURSOR_COST) == Ok(b2)
    requires D.ReadTagType(data, p, b2) == D.Parsed(END, q, b2)
    ensures ReadRestEntries(acc, k, data, pos, b) == D.Parsed(SetTag(acc, e.name, e.tag), q, b2)
  {
  }

  /** One turn of the loop of COMPOUND `readFully`, given what its reads return. */
  lemma RestStep(acc: seq<Entry>, k: Kind, data: seq<u8>, pos: nat, e: Entry, p: nat, b: Budget, b1: Budget, b2: Budget, k1: Kind, q: nat)
    requires pos <= |data| && k1 != END
    requires D.ReadEntry(k, data, pos, b) == D.Parsed(e, p, b1)
    requires D.Charge(b1, ENTRY_CURSOR_COST) == Ok(b2)
    requires D.ReadTagType(data, p, b2) == D.Parsed(k1, q, b2)
    ensures ReadRestEntries(acc, k, data, pos, b) == ReadRestEntries(SetTag(acc, e.name, e.tag), k1, data, q, b2)
  {
  }

  /** The eager compound loop stops at a failing first entry, with its error. */
  lemma EagerFirstFails(acc: seq<Entry>, data: seq<u8>, p0: nat, k: Kind, b: Budget)
    requires p0 < |data| && k != END && D.ReadTagType(data, p0, b) == D.Parsed(k, p0 + 1, b)
    requires D.ReadEntry(k, data, p0 + 1, b).Failed?
    ensures D.ReadEntries(acc, data, p0, b) == D.Failed(D.ReadEntry(k, data, p0 + 1, b).error, D.ReadEntry(k, data, p0 + 1, b).budget)
  {
  }

  /** The eager compound loop stops at a failing type byte, with its error. */
  lemma EagerTypeFails(acc: seq<Entry>, data: seq<u8>, p: nat, b: Budget)
    requires p <= |data| && D.ReadTagType(data, p, b).Failed?
    ensures D.ReadEntries(acc, data, p, b) == D.Failed(D.ReadTagType(data, p, b).error, b)
  {
  }

  /** Both loops stop at the same failing first entry. */
  lemma MatchFirstFails(acc: seq<Entry>, k: Kind, data: seq<u8>, p0: nat)
    requires p0 < |data| && k != END && D.ReadTagType(data, p0, Noop) == D.Parsed(k, p0 + 1, Noop)
    requires D.ReadEntry(k, data, p0 + 1, Noop).Failed?
    ensures ReadRestEntries(acc, k, data, p0 + 1, Noop) == D.ReadEntries(acc, data, p0, Noop)
  {
    RestFirstFails(acc, k, data, p0 + 1, Noop);
    EagerFirstFails(acc, data, p0, k, Noop);
  }

  /** After one entry read alike, both loops stop at the same failing type byte, or at the same END. */
  lemma MatchAfterEntry(acc: seq<Entry>, k: Kind, data: seq<u8>, p0: nat, e: Entry, p: nat)
    requires p0 < |data| && k != END && D.ReadTagType(data, p0, Noop) == D.Parsed(k, p0 + 1, Noop)
    requires D.ReadEntry(k, data, p0 + 1, Noop) == D.Parsed(e, p, Noop)
    requires D.ReadTagType(data, p, Noop).Failed? || D.ReadTagType(data, p, Noop).value == END
    ensures ReadRestEntries(acc, k, data, p0 + 1, Noop) == D.ReadEntries(acc, data, p0, Noop)
  {
    NoopNeverFails(ENTRY_CURSOR_COST, 0, 0);
    NoopNeverFails(D.ENTRY_COST, 0, 0);
    assert D.EntryCharge(acc, e.name, Noop) == Ok(Noop);
    D.EntriesStep(acc, data, p0, k, e, p, Noop, Noop, Noop);
    if D.ReadTagType(data, p, Noop).Failed? {
      RestNextFails(acc, k, data, p0 + 1, e, p, Noop, Noop, Noop);
      EagerTypeFails(SetTag(acc, e.name, e.tag), data, p, Noop);
    } else {
      RestEnds(acc, k, data, p0 + 1, e, p, Noop, Noop, Noop, p + 1);
      D.EntriesEnd(SetTag(acc, e.name, e.tag), data, p, Noop);
    }
  }

  /** After one entry read alike, both loops go on alike if they go on alike from the next type byte. */
  lemma MatchStep(acc: seq<Entry>, k: Kind, data: seq<u8>, p0: nat, e: Entry, p: nat, k1: Kind)
    requires p0 < |data| && k != END && D.ReadTagType(data, p0, Noop) == D.Parsed(k, p0 + 1, Noop)
    requires D.ReadEntry(k, data, p0 + 1, Noop) == D.Parsed(e, p, Noop)
    requires k1 != END && D.ReadTagType(data, p, Noop) == D.Parsed(k1, p + 1, Noop)
    requires ReadRestEntries(SetTag(acc, e.name, e.tag), k1, data, p + 1, Noop) == D.ReadEntries(SetTag(acc, e.name, e.tag), data, p, Noop)
    ensures ReadRestEntries(acc, k, data, p0 + 1, Noop) == D.ReadEntries(acc, data, p0, Noop)
  {
    NoopNeverFails(ENTRY_CURSOR_COST, 0, 0);
    NoopNeverFails(D.ENTRY_COST, 0, 0);
    assert D.EntryCharge(acc, e.name, Noop) == Ok(Noop);
    D.EntriesStep(acc, data, p0, k, e, p, Noop, Noop, Noop);
    RestStep(acc, k, data, p0 + 1, e, p, Noop, Noop, Noop, k1, p + 1);
  }

  /**
   * Under the no-op limiter, the loop of COMPOUND `readFully` after a type
   * byte reads exactly what the eager compound loop reads from that byte on.
   */
  lemma {:induction false} RestEntriesMatchEager(acc: seq<Entry>, k: Kind, data: seq<u8>, p0: nat)
    requires p0 < |data| && k != END && D.ReadTagType(data, p0, Noop) == D.Parsed(k, p0 + 1, Noop)
    ensures ReadRestEntries(acc, k, data, p0 + 1, Noop) == D.ReadEntries(acc, data, p0, Noop)
    decreases |data| - p0
  {
    var entry := D.ReadEntry(k, data, p0 + 1, Noop);
    if entry.Failed? {
      MatchFirstFails(acc, k, data, p0);
    } else {
      var e, p := entry.value, entry.pos;
      assert entry.budget == Noop;
      var next := D.ReadTagType(data, p, Noop);
      if next.Failed? || next.value == END {
        MatchAfterEntry(acc, k, data, p0, e, p);
      } else {
        RestEntriesMatchEager(SetTag(acc, e.name, e.tag), next.value, data, p);
        MatchStep(acc, k, data, p0, e, p, next.value);
      }
    }
  }

  /**
   * Between operations, a cursor in the chain may advance exactly when no
   * cursor created after it is unfinished.
   */
  lemma UnblockedIsInnermost(data: seq<u8>, st: State, c: nat)
    requires Wf(data, st) && c in st.open
    ensures !Blocked(st, c) <==> forall d :: d in st.open ==> d <= c
  {
    var n := |st.open|;
    if Blocked(st, c) {
      var i :| 0 <= i < n && st.open[i] == c;
      assert st.open[n - 1] in st.open;
    } else {
      forall d | d in st.open
        ensures d <= c
      {
        var j :| 0 <= j < n && st.open[j] == d;
      }
    }
  }

  // The check as written

  /**
   * The answer `hasNext` gives for a cursor that the source's
   * `checkReadable` consults: a LIST answers by its count, a COMPOUND by the
   * type byte it read ahead, or else by reading the next byte, which is END
   * exactly when it is 0 (a read past the end throws instead of passing).
   */
  predicate HasNextAsWritten(data: seq<u8>, pos: nat, f: Cursor)
  {
    match f
    case ListCursor(_, remaining) => remaining > 0
    case CompoundCursor(nextType, hasReadType) =>
      if hasReadType then nextType != END else !(pos < |data| && data[pos] == 0)
  }

  /** The source's `checkReadable(lastRead)` for `c`: it passes unless the cursor `c` returned last answers `hasNext`. */
  predicate AsWrittenPasses(data: seq<u8>, st: State, c: nat)
    requires IdsOk(st)
  {
    forall i :: 0 <= i < |st.open| - 1 && st.open[i] == c ==> !HasNextAsWritten(data, st.pos, st.cursors[st.open[i + 1]])
  }

  /**
   * A COMPOUND root whose current entry is a LIST of one COMPOUND, with
   * that list's only element handed out and still open: the list has no
   * element left, so the check as written lets the root advance, and the
   * root would read its next type byte from the middle of the inner
   * compound. The corrected check refuses.
   */
  lemma AsWrittenPassesOverOpenGrandchild(data: seq<u8>)
    ensures var st := State(0, Noop, [CompoundCursor(END, false), ListCursor(COMPOUND, 0), CompoundCursor(BYTE, true)], [0, 1, 2]);
      Wf(data, st) && AsWrittenPasses(data, st, 0) && Blocked(st, 0)
      && CompoundHasNext(data, st, 0) == Step(Err(IllegalState), Ready(st))
  {
    var st := State(0, Noop, [CompoundCursor(END, false), ListCursor(COMPOUND, 0), CompoundCursor(BYTE, true)], [0, 1, 2]);
    assert st.open[1] == 1;
  }
}
