/**
 * The streaming NBT reader's cursors as the source runs them: one stream
 * and one limiter shared by every cursor of a `deserializeTag` call, each
 * cursor's fields (`nextType`, `hasReadType`, `remaining`) updated in place,
 * `runCompleted` passing completion up the chain of parents, and `skip` and
 * `readFully` as loops. `SequentialReader` holds that shared state: the
 * stream, the fields of every cursor by handle, and the chain of
 * unfinished cursors. Each method is proved to leave the reader as the
 * `SequentialNbtReader` function of the same name computes, and to keep
 * the chain well formed (`Wf`).
 */
module NbtCursors {
  import opened Wrappers
  import opened JavaInts
  import opened ModifiedUtf8
  import opened NbtLimiter
  import opened NbtTypes
  import opened NbtStream
  import D = DefaultNbtSerializer
  import S = TagSkips
  import K = SkipStream
  import R = SequentialNbtReader

  /** One entry of a COMPOUND cursor skipped after its type byte: the name by its length, the value, the entry charge. */
  method SkipEntry(input: NbtInput, k: Kind) returns (r: Result<(), Error>)
    requires input.Valid()
    modifies input, input.limiter
    ensures input.Valid()
    ensures AsParsed(r, input.pos, input.limiter.Model()) == R.SkipEntry(k, input.data, old(input.pos), old(input.limiter.Model()))
  {
    var len := K.ReadUnsignedShort(input);
    if len.Err? {
      return Err(len.error);
    }
    K.SkipBytes(input, len.value);
    var s := K.Skip(input, k);
    if s.Err? {
      return Err(s.error);
    }
    var c := input.Charge(R.ENTRY_CURSOR_COST);
    if c.Err? {
      return Err(c.error);
    }
    return Ok(());
  }

  /**
   * The loop of COMPOUND `readFully` after the first type byte: each entry,
   * its charge, the entry set updated, the next type byte, until END.
   */
  method ReadRestEntries(input: NbtInput, k0: Kind) returns (r: Result<seq<Entry>, Error>)
    requires input.Valid()
    modifies input, input.limiter
    ensures input.Valid()
    ensures AsParsed(r, input.pos, input.limiter.Model()) == R.ReadRestEntries([], k0, input.data, old(input.pos), old(input.limiter.Model()))
  {
    ghost var goal := R.ReadRestEntries([], k0, input.data, input.pos, input.limiter.Model());
    var entries: seq<Entry> := [];
    var k := k0;
    while true
      invariant input.Valid()
      invariant R.ReadRestEntries(entries, k, input.data, input.pos, input.limiter.Model()) == goal
      decreases |input.data| - input.pos
    {
      var e := input.ReadEntry(k);
      if e.Err? {
        return Err(e.error);
      }
      var charge := input.Charge(R.ENTRY_CURSOR_COST);
      if charge.Err? {
        return Err(charge.error);
      }
      entries := SetTag(entries, e.value.name, e.value.tag);
      var next := input.ReadTagType();
      if next.Err? {
        return Err(next.error);
      }
      if next.value == END {
        return Ok(entries);
      }
      k := next.value;
    }
  }

  /**
   * The state the cursors of one `deserializeTag` call share. `cursors[i]`
   * holds the fields of the cursor with handle `i`; `open` lists the
   * unfinished ones, outermost first; `failure` records the exception that
   * interrupted an operation, after which the cursors refuse to go on.
   */
  class SequentialReader {
    const input: NbtInput
    var cursors: seq<R.Cursor>
    var open: seq<nat>
    var failure: Option<Error>

    ghost function State(): R.State
      reads this, input, input.limiter
    {
      R.State(input.pos, input.limiter.Model(), cursors, open)
    }

    ghost function Model(): R.Reader
      reads this, input, input.limiter
    {
      if failure.Some? then R.Broken(failure.value) else R.Ready(State())
    }

    /** The stream is valid, and between operations the chain of cursors is well formed. */
    ghost predicate Valid()
      reads this, input, input.limiter
    {
      input.Valid() && R.Fits(input.data, State()) && (failure.None? ==> R.Wf(input.data, State()))
    }

    /** Nothing read yet: no cursor, at the start of the stream. */
    constructor (input: NbtInput)
      requires input.Valid() && input.pos == 0
      ensures Valid() && this.input == input && Model() == R.Ready(R.State(0, input.limiter.Model(), [], []))
    {
      this.input := input;
      cursors := [];
      open := [];
      failure := None;
    }

    /**
     * `runCompleted` and the `onComplete` callbacks it triggers: while the
     * innermost cursor has no more elements, it finishes and its parent is
     * asked in turn.
     */
    method RunCompleted()
      requires input.Valid() && R.Fits(input.data, State()) && failure.None?
      modifies this, input
      ensures input.Valid() && R.Fits(input.data, State()) && |cursors| == old(|cursors|)
      ensures Model() == R.RunCompleted(input.data, old(State()))
    {
      ghost var goal := R.RunCompleted(input.data, State());
      while |open| > 0
        invariant input.Valid() && R.Fits(input.data, State()) && failure.None? && |cursors| == old(|cursors|)
        invariant R.RunCompleted(input.data, State()) == goal
        decreases |open|
      {
        var done := CompleteTop();
        if done {
          return;
        }
      }
    }

    /** One round of `runCompleted`: the innermost cursor answers whether it has more; if not, it finishes. */
    method CompleteTop() returns (done: bool)
      requires input.Valid() && R.Fits(input.data, State()) && failure.None? && |open| > 0
      modifies this, input
      ensures input.Valid() && R.Fits(input.data, State()) && |cursors| == old(|cursors|)
      ensures done ==> Model() == R.RunCompleted(input.data, old(State()))
      ensures !done ==> failure.None? && |open| < old(|open|) && R.RunCompleted(input.data, State()) == R.RunCompleted(input.data, old(State()))
    {
      var t := open[|open| - 1];
      match cursors[t] {
        case ListCursor(_, remaining) =>
          if remaining > 0 {
            return true;
          }
        case CompoundCursor(nextType, hasReadType) =>
          if hasReadType {
            if nextType != END {
              return true;
            }
          } else {
            var k := input.ReadTagType();
            if k.Err? {
              failure := Some(k.error);
              return true;
            }
            cursors := cursors[t := R.CompoundCursor(k.value, true)];
            if k.value != END {
              return true;
            }
          }
      }
      open := open[..|open| - 1];
      return false;
    }

    /** The result `v` of an operation whose last step was `runCompleted`, unless that step failed. */
    method Settle<T>(v: T) returns (r: Result<T, Error>)
      ensures r == R.Settle(v, Model()).result
    {
      r := if failure.Some? then Err(failure.value) else Ok(v);
    }

    /** The COMPOUND cursor's constructor. */
    method NewCompound() returns (r: Result<R.Item, Error>)
      requires input.Valid() && R.Fits(input.data, State()) && failure.None?
      modifies this, input, input.limiter
      ensures input.Valid() && R.Fits(input.data, State())
      ensures R.Step(r, Model()) == R.NewCompound(input.data, old(State()))
    {
      var c := input.Charge(R.COMPOUND_CURSOR_COST);
      if c.Err? {
        failure := Some(c.error);
        return Err(c.error);
      }
      var id := |cursors|;
      cursors := cursors + [R.CompoundCursor(END, false)];
      open := open + [id];
      RunCompleted();
      r := Settle(R.Nested(id));
    }

    /** The LIST cursor's constructor. */
    method NewList() returns (r: Result<R.Item, Error>)
      requires input.Valid() && R.Fits(input.data, State()) && failure.None?
      modifies this, input, input.limiter
      ensures input.Valid() && R.Fits(input.data, State())
      ensures R.Step(r, Model()) == R.NewList(input.data, old(State()))
    {
      var c := input.Charge(R.LIST_CURSOR_COST);
      if c.Err? {
        failure := Some(c.error);
        return Err(c.error);
      }
      var k := input.ReadTagType();
      if k.Err? {
        failure := Some(k.error);
        return Err(k.error);
      }
      var n := K.ReadInt(input);
      if n.Err? {
        failure := Some(n.error);
        return Err(n.error);
      }
      c := input.Charge(D.ListRefCharge(n.value));
      if c.Err? {
        failure := Some(c.error);
        return Err(c.error);
      }
      var id := |cursors|;
      cursors := cursors + [R.ListCursor(k.value, n.value)];
      open := open + [id];
      RunCompleted();
      r := Settle(R.Nested(id));
    }

    /** One element of kind `k` for the innermost cursor. */
    method ReadChild(k: Kind) returns (r: Result<R.Item, Error>)
      requires input.Valid() && R.Fits(input.data, State()) && failure.None?
      modifies this, input, input.limiter
      ensures input.Valid() && R.Fits(input.data, State())
      ensures R.Step(r, Model()) == R.ReadChild(input.data, old(State()), k)
    {
      if k == COMPOUND {
        r := NewCompound();
      } else if k == LIST {
        r := NewList();
      } else {
        var t := input.ReadPayload(k);
        if t.Err? {
          failure := Some(t.error);
          return Err(t.error);
        }
        RunCompleted();
        r := Settle(R.Value(t.value));
      }
    }

    /** `deserializeTag` on a fresh reader: the root's type, its name skipped if named, then the root. */
    method DeserializeTag(named: bool) returns (r: Result<R.Item, Error>)
      requires Valid() && Model() == R.Ready(R.State(0, input.limiter.Model(), [], []))
      modifies this, input, input.limiter
      ensures Valid()
      ensures R.Step(r, Model()) == R.DeserializeTag(input.data, old(input.limiter.Model()), named)
    {
      R.DeserializeTagWf(input.data, input.limiter.Model(), named);
      var k := input.ReadTagType();
      if k.Err? {
        failure := Some(k.error);
        return Err(k.error);
      }
      if named {
        var len := K.ReadUnsignedShort(input);
        if len.Err? {
          failure := Some(len.error);
          return Err(len.error);
        }
        K.SkipBytes(input, len.value);
      }
      r := ReadChild(k.value);
    }

    /** `checkReadable` as intended: `c` is unfinished but a cursor it returned is still open. */
    predicate Blocked(c: nat)
      reads this
    {
      c in open && c != open[|open| - 1]
    }

    /** COMPOUND `hasNext` on a reader that no exception has interrupted. */
    method HasNext(c: nat) returns (r: Result<bool, Error>)
      requires input.Valid() && R.Fits(input.data, State()) && failure.None?
      requires c < |cursors| && cursors[c].CompoundCursor?
      modifies this, input
      ensures input.Valid() && R.Fits(input.data, State()) && |cursors| == old(|cursors|)
      ensures R.Step(r, Model()) == R.CompoundHasNext(input.data, old(State()), c)
    {
      if Blocked(c) {
        return Err(IllegalState);
      }
      if !cursors[c].hasReadType {
        var k := input.ReadTagType();
        if k.Err? {
          failure := Some(k.error);
          return Err(k.error);
        }
        cursors := cursors[c := R.CompoundCursor(k.value, true)];
      }
      return Ok(cursors[c].nextType != END);
    }

    /** COMPOUND `hasNext`. */
    method CompoundHasNext(c: nat) returns (r: Result<bool, Error>)
      requires Valid() && c < |cursors| && cursors[c].CompoundCursor?
      modifies this, input
      ensures Valid() && |cursors| == old(|cursors|)
      ensures old(failure).Some? ==> r == Err(Unusable) && Model() == old(Model())
      ensures old(failure).None? ==> R.Step(r, Model()) == R.CompoundHasNext(input.data, old(State()), c)
    {
      if failure.Some? {
        return Err(Unusable);
      }
      if !Blocked(c) {
        R.CompoundHasNextQuiet(input.data, State(), c);
      }
      r := HasNext(c);
    }

    /** COMPOUND `next`. */
    method CompoundNext(c: nat) returns (r: Result<(JString, R.Item), Error>)
      requires Valid() && c < |cursors| && cursors[c].CompoundCursor?
      modifies this, input, input.limiter
      ensures old(failure).Some? ==> r == Err(Unusable) && Model() == old(Model())
      ensures old(failure).None? ==> R.Step(r, Model()) == R.CompoundNext(input.data, old(State()), c)
      ensures Valid()
    {
      if failure.Some? {
        return Err(Unusable);
      }
      R.CompoundNextWf(input.data, State(), c);
      r := CompoundNextReady(c);
    }

    /** COMPOUND `next` on a reader that no exception has interrupted. */
    method CompoundNextReady(c: nat) returns (r: Result<(JString, R.Item), Error>)
      requires input.Valid() && R.Fits(input.data, State()) && failure.None?
      requires c < |cursors| && cursors[c].CompoundCursor?
      modifies this, input, input.limiter
      ensures input.Valid() && R.Fits(input.data, State())
      ensures R.Step(r, Model()) == R.CompoundNext(input.data, old(State()), c)
    {
      var h := HasNext(c);
      if h.Err? {
        return Err(h.error);
      }
      if !h.value {
        return Err(NoMoreElements);
      }
      var k := cursors[c].nextType;
      cursors := cursors[c := R.CompoundCursor(k, false)];
      var name := input.ReadString();
      if name.Err? {
        failure := Some(name.error);
        return Err(name.error);
      }
      var s := ReadChild(k);
      if s.Err? {
        return Err(s.error);
      }
      var charge := input.Charge(R.ENTRY_CURSOR_COST);
      if charge.Err? {
        failure := Some(charge.error);
        return Err(charge.error);
      }
      return Ok((name.value, s.value));
    }

    /** LIST `hasNext`. */
    function ListHasNext(c: nat): (r: bool)
      reads this
      requires c < |cursors| && cursors[c].ListCursor?
    {
      cursors[c].remaining > 0
    }

    /** LIST `next`. */
    method ListNext(c: nat) returns (r: Result<R.Item, Error>)
      requires Valid() && c < |cursors| && cursors[c].ListCursor?
      modifies this, input, input.limiter
      ensures old(failure).Some? ==> r == Err(Unusable) && Model() == old(Model())
      ensures old(failure).None? ==> R.Step(r, Model()) == R.ListNext(input.data, old(State()), c)
      ensures Valid()
    {
      if failure.Some? {
        return Err(Unusable);
      }
      R.ListNextWf(input.data, State(), c);
      r := ListNextReady(c);
    }

    /** LIST `next` on a reader that no exception has interrupted. */
    method ListNextReady(c: nat) returns (r: Result<R.Item, Error>)
      requires input.Valid() && R.Fits(input.data, State()) && failure.None?
      requires c < |cursors| && cursors[c].ListCursor?
      modifies this, input, input.limiter
      ensures input.Valid() && R.Fits(input.data, State())
      ensures R.Step(r, Model()) == R.ListNext(input.data, old(State()), c)
    {
      if Blocked(c) {
        return Err(IllegalState);
      }
      var f := cursors[c];
      if !ListHasNext(c) {
        return Err(NoMoreElements);
      }
      ghost var st0 := State();
      cursors := cursors[c := R.ListCursor(f.listType, f.remaining - 1)];
      assert R.ListNext(input.data, st0, c) == R.ReadChild(input.data, State(), f.listType);
      r := ReadChild(f.listType);
    }

    /** COMPOUND `skipOne`. */
    method CompoundSkipOne(c: nat) returns (r: Result<(), Error>)
      requires Valid() && c < |cursors| && cursors[c].CompoundCursor?
      modifies this, input, input.limiter
      ensures old(failure).Some? ==> r == Err(Unusable) && Model() == old(Model())
      ensures old(failure).None? ==> R.Step(r, Model()) == R.CompoundSkipOne(input.data, old(State()), c)
      ensures Valid()
    {
      if failure.Some? {
        return Err(Unusable);
      }
      R.CompoundSkipOneWf(input.data, State(), c);
      r := CompoundSkipOneReady(c);
    }

    /** COMPOUND `skipOne` on a reader that no exception has interrupted. */
    method CompoundSkipOneReady(c: nat) returns (r: Result<(), Error>)
      requires input.Valid() && R.Fits(input.data, State()) && failure.None?
      requires c < |cursors| && cursors[c].CompoundCursor?
      modifies this, input, input.limiter
      ensures input.Valid() && R.Fits(input.data, State())
      ensures R.Step(r, Model()) == R.CompoundSkipOne(input.data, old(State()), c)
    {
      var h := HasNext(c);
      if h.Err? {
        return Err(h.error);
      }
      if !h.value {
        return Ok(());
      }
      var k := cursors[c].nextType;
      var s := SkipEntry(input, k);
      if s.Err? {
        failure := Some(s.error);
        return Err(s.error);
      }
      cursors := cursors[c := R.CompoundCursor(k, false)];
      RunCompleted();
      r := Settle(());
    }

    /** LIST `skipOne`. */
    method ListSkipOne(c: nat) returns (r: Result<(), Error>)
      requires Valid() && c < |cursors| && cursors[c].ListCursor?
      modifies this, input, input.limiter
      ensures old(failure).Some? ==> r == Err(Unusable) && Model() == old(Model())
      ensures old(failure).None? ==> R.Step(r, Model()) == R.ListSkipOne(input.data, old(State()), c)
      ensures Valid()
    {
      if failure.Some? {
        return Err(Unusable);
      }
      R.ListSkipOneWf(input.data, State(), c);
      r := ListSkipOneReady(c);
    }

    /** LIST `skipOne` on a reader that no exception has interrupted. */
    method ListSkipOneReady(c: nat) returns (r: Result<(), Error>)
      requires input.Valid() && R.Fits(input.data, State()) && failure.None?
      requires c < |cursors| && cursors[c].ListCursor?
      modifies this, input, input.limiter
      ensures input.Valid() && R.Fits(input.data, State())
      ensures R.Step(r, Model()) == R.ListSkipOne(input.data, old(State()), c)
    {
      if Blocked(c) {
        return Err(IllegalState);
      }
      var f := cursors[c];
      if !ListHasNext(c) {
        return Ok(());
      }
      var s := K.Skip(input, f.listType);
      if s.Err? {
        failure := Some(s.error);
        return Err(s.error);
      }
      cursors := cursors[c := R.ListCursor(f.listType, f.remaining - 1)];
      RunCompleted();
      r := Settle(());
    }

    /** `skip` on the innermost cursor, once what it returned last is skipped. */
    method SkipTop()
      requires input.Valid() && R.Fits(input.data, State()) && failure.None? && |open| > 0
      modifies this, input, input.limiter
      ensures input.Valid() && R.Fits(input.data, State()) && |cursors| == old(|cursors|)
      ensures Model() == R.SkipTop(input.data, old(State()))
    {
      var t := open[|open| - 1];
      match cursors[t] {
        case ListCursor(k, remaining) =>
          if remaining > 0 {
            var s := K.SkipItems(input, k, remaining);
            if s.Err? {
              failure := Some(s.error);
              return;
            }
            cursors := cursors[t := R.ListCursor(k, 0)];
            RunCompleted();
          }
        case CompoundCursor(_, _) =>
          var h := HasNext(t);
          if h.Ok? && h.value {
            SkipCompoundRest(t);
          }
      }
    }

    /** The rest of a COMPOUND cursor's entries: the pending one, then the others by the COMPOUND skipper's loop. */
    method SkipCompoundRest(t: nat)
      requires input.Valid() && R.Fits(input.data, State()) && failure.None?
      requires t < |cursors| && cursors[t].CompoundCursor?
      modifies this, input, input.limiter
      ensures input.Valid() && R.Fits(input.data, State()) && |cursors| == old(|cursors|)
      ensures Model() == R.SkipCompoundRest(input.data, old(State()), t)
    {
      var s := SkipEntry(input, cursors[t].nextType);
      if s.Err? {
        failure := Some(s.error);
        return;
      }
      s := K.SkipCompound(input);
      if s.Err? {
        failure := Some(s.error);
        return;
      }
      cursors := cursors[t := R.CompoundCursor(END, true)];
      RunCompleted();
    }

    /**
     * The `lastRead.skip()` chain: the innermost cursor is skipped until
     * `c` finishes (`inclusive`) or is the innermost (otherwise).
     */
    method SkipAbove(c: nat, inclusive: bool)
      requires input.Valid() && R.Fits(input.data, State()) && failure.None?
      modifies this, input, input.limiter
      ensures input.Valid() && R.Fits(input.data, State()) && |cursors| == old(|cursors|)
      ensures Model() == R.SkipAbove(input.data, old(State()), c, inclusive)
    {
      ghost var goal := R.SkipAbove(input.data, State(), c, inclusive);
      while c in open && (inclusive || open[|open| - 1] != c)
        invariant input.Valid() && R.Fits(input.data, State()) && failure.None? && |cursors| == old(|cursors|)
        invariant R.SkipAbove(input.data, State(), c, inclusive) == goal
        decreases |open|
      {
        var depth := |open|;
        SkipTop();
        if failure.Some? || |open| >= depth {
          return;
        }
      }
    }

    /** `skip` (either kind). */
    method Skip(c: nat) returns (r: Result<(), Error>)
      requires Valid()
      modifies this, input, input.limiter
      ensures old(failure).Some? ==> r == Err(Unusable) && Model() == old(Model())
      ensures old(failure).None? ==> R.Step(r, Model()) == R.Skip(input.data, old(State()), c)
      ensures Valid()
    {
      if failure.Some? {
        return Err(Unusable);
      }
      R.SkipAboveWf(input.data, State(), c, true);
      SkipAbove(c, true);
      r := Settle(());
    }

    /** COMPOUND `readFully`. */
    method CompoundReadFully(c: nat) returns (r: Result<Tag, Error>)
      requires Valid() && c < |cursors| && cursors[c].CompoundCursor?
      modifies this, input, input.limiter
      ensures old(failure).Some? ==> r == Err(Unusable) && Model() == old(Model())
      ensures old(failure).None? ==> R.Step(r, Model()) == R.CompoundReadFully(input.data, old(State()), c)
      ensures Valid()
    {
      if failure.Some? {
        return Err(Unusable);
      }
      R.CompoundReadFullyWf(input.data, State(), c);
      r := CompoundReadFullyReady(c);
    }

    /** COMPOUND `readFully` on a reader that no exception has interrupted. */
    method CompoundReadFullyReady(c: nat) returns (r: Result<Tag, Error>)
      requires input.Valid() && R.Fits(input.data, State()) && failure.None?
      requires c < |cursors| && cursors[c].CompoundCursor?
      modifies this, input, input.limiter
      ensures input.Valid() && R.Fits(input.data, State())
      ensures R.Step(r, Model()) == R.CompoundReadFully(input.data, old(State()), c)
    {
      ghost var st0 := State();
      SkipAbove(c, false);
      if failure.Some? {
        return Err(failure.value);
      }
      ghost var st1 := State();
      assert R.SameKind(st0.cursors[c], cursors[c]);
      var h := HasNext(c);
      if h.Err? {
        assert R.CompoundReadFully(input.data, st0, c) == R.Step(Err(h.error), Model());
        return Err(h.error);
      }
      if !h.value {
        return Ok(Compound([]));
      }
      ghost var st2 := State();
      var entries := ReadRestEntries(input, cursors[c].nextType);
      if entries.Err? {
        failure := Some(entries.error);
        return Err(entries.error);
      }
      cursors := cursors[c := R.CompoundCursor(END, true)];
      ghost var st3 := State();
      RunCompleted();
      r := Settle(Compound(entries.value));
      assert R.CompoundReadFully(input.data, st0, c) == R.Settle(Compound(entries.value), R.RunCompleted(input.data, st3));
    }

    /** LIST `readFully`. */
    method ListReadFully(c: nat) returns (r: Result<Tag, Error>)
      requires Valid() && c < |cursors| && cursors[c].ListCursor?
      modifies this, input, input.limiter
      ensures old(failure).Some? ==> r == Err(Unusable) && Model() == old(Model())
      ensures old(failure).None? ==> R.Step(r, Model()) == R.ListReadFully(input.data, old(State()), c)
      ensures Valid()
    {
      if failure.Some? {
        return Err(Unusable);
      }
      R.ListReadFullyWf(input.data, State(), c);
      r := ListReadFullyReady(c);
    }

    /** LIST `readFully` on a reader that no exception has interrupted. */
    method ListReadFullyReady(c: nat) returns (r: Result<Tag, Error>)
      requires input.Valid() && R.Fits(input.data, State()) && failure.None?
      requires c < |cursors| && cursors[c].ListCursor?
      modifies this, input, input.limiter
      ensures input.Valid() && R.Fits(input.data, State())
      ensures R.Step(r, Model()) == R.ListReadFully(input.data, old(State()), c)
    {
      SkipAbove(c, false);
      if failure.Some? {
        return Err(failure.value);
      }
      var f := cursors[c];
      if !ListHasNext(c) {
        return Ok(List(f.listType, []));
      }
      var items := input.ReadItems(f.listType, f.remaining);
      if items.Err? {
        failure := Some(items.error);
        return Err(items.error);
      }
      cursors := cursors[c := R.ListCursor(f.listType, 0)];
      RunCompleted();
      r := Settle(List(f.listType, items.value));
    }
  }

  /** `intToBytes`: `val` big-endian into `buf[offset..offset + 4]`, nothing else changed. */
  method IntToBytes(buf: array<u8>, val: int, offset: nat)
    requires offset + 4 <= buf.Length
    modifies buf
    ensures buf[..] == old(buf[..offset]) + IntBytes(val) + old(buf[offset + 4..])
  {
    var v1 := val / TWO_8;
    var v2 := v1 / TWO_8;
    var v3 := v2 / TWO_8;
    buf[offset] := v3 % TWO_8;
    buf[offset + 1] := v2 % TWO_8;
    buf[offset + 2] := v1 % TWO_8;
    buf[offset + 3] := val % TWO_8;
    IntBytesDigits(val);
  }

  /** The four bytes of `IntBytes(val)`, most significant first: each an arithmetic shift right, masked. */
  lemma IntBytesDigits(val: int)
    ensures IntBytes(val) == [(val / TWO_8 / TWO_8 / TWO_8) % TWO_8, (val / TWO_8 / TWO_8) % TWO_8, (val / TWO_8) % TWO_8, val % TWO_8]
  {
    var v1 := val / TWO_8;
    var v2 := v1 / TWO_8;
    var v3 := v2 / TWO_8;
    assert BigEndian(v3 / TWO_8, 0) == [];
    assert BigEndian(v3, 1) == [v3 % TWO_8];
    assert BigEndian(v2, 2) == [v3 % TWO_8, v2 % TWO_8];
    assert BigEndian(v1, 3) == [v3 % TWO_8, v2 % TWO_8, v1 % TWO_8];
  }
}
