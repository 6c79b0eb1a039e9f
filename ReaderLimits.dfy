/**
 * What the limiter changes about the eager reader and what it does not: a
 * limiter can only refuse a read. Whenever a read succeeds under some
 * limiter state, it gives the same tag and stops at the same byte as the
 * read under the no-op limiter.
 */
module ReaderLimits {
  import opened Wrappers
  import opened JavaInts
  import opened ModifiedUtf8
  import opened NbtLimiter
  import opened NbtTypes
  import opened DefaultNbtSerializer

  /** `r` failed, or the unlimited read `u` succeeded with the same value at the same position. */
  predicate Agrees<T(==)>(r: Parsed<T>, u: Parsed<T>)
  {
    r.Parsed? ==> u.Parsed? && u.value == r.value && u.pos == r.pos
  }

  /** A charge to the no-op limiter always passes and leaves it as it was. */
  lemma NoopCharge(amount: int)
    ensures Charge(Noop, amount) == Ok(Noop)
  {
  }

  /** A budget that follows the no-op limiter is the no-op limiter. */
  lemma FollowsNoop(b: Budget)
    requires Follows(Noop, b)
    ensures b == Noop
  {
  }

  /** `readString` under any limiter state agrees with the unlimited one. */
  lemma StringIgnoresLimiter(data: seq<u8>, pos: nat, b: Budget)
    ensures Agrees(ReadString(data, pos, b), ReadString(data, pos, Noop))
  {
    var r := ReadString(data, pos, b);
    if r.Parsed? {
      var u := ReadUtf(data, pos, b);
      assert u.Parsed?;
      ReadUtfFrame(data, pos, b);
      ReadUtfFrame(data, pos, Noop);
      NoopCharge(STRING_SIZE_BYTES + 2 * |u.value|);
    }
  }

  lemma StringTagIgnoresLimiter(data: seq<u8>, pos: nat, b: Budget)
    ensures Agrees(ReadStringTag(data, pos, b), ReadStringTag(data, pos, Noop))
  {
    var r := ReadStringTag(data, pos, b);
    if r.Parsed? {
      var b1 := Charge(b, STRING_COST).value;
      ReadUtfFrame(data, pos, b1);
      ReadUtfFrame(data, pos, Noop);
      NoopCharge(STRING_COST);
      NoopCharge(2 * |r.value.s|);
    }
  }

  lemma ArrayIgnoresLimiter(k: Kind, data: seq<u8>, pos: nat, b: Budget)
    requires IsArray(k)
    ensures Agrees(ReadArray(k, data, pos, b), ReadArray(k, data, pos, Noop))
  {
    var r := ReadArray(k, data, pos, b);
    if r.Parsed? {
      ArrayHeaderGuards(k, data, pos, b);
      ArrayHeaderGuards(k, data, pos, Noop);
      NoopCharge(ARRAY_COST);
      var length := IntOf(data[pos..pos + 4]);
      IntOfRange(data[pos..pos + 4]);
      NoopCharge(Wrap32(ArrayBytes(k, length)));
      assert ReadArrayHeader(k, data, pos, Noop).Parsed?;
    }
  }

  /**
   * The reader registered for any kind, under any limiter state, agrees
   * with the same reader under the no-op limiter.
   */
  lemma {:induction false} PayloadIgnoresLimiter(k: Kind, data: seq<u8>, pos: nat, b: Budget)
    requires pos <= |data|
    ensures Agrees(ReadPayload(k, data, pos, b), ReadPayload(k, data, pos, Noop))
    decreases |data| - pos, 4, 0
  {
    match k
    case END => NoopCharge(OBJECT_HEADER_BYTES);
    case STRING => StringTagIgnoresLimiter(data, pos, b);
    case LIST => ListIgnoresLimiter(data, pos, b);
    case COMPOUND => CompoundIgnoresLimiter(data, pos, b);
    case BYTE_ARRAY => ArrayIgnoresLimiter(k, data, pos, b);
    case INT_ARRAY => ArrayIgnoresLimiter(k, data, pos, b);
    case LONG_ARRAY => ArrayIgnoresLimiter(k, data, pos, b);
    case _ => NoopCharge(NumberCost(k));
  }

  lemma {:induction false} ListIgnoresLimiter(data: seq<u8>, pos: nat, b: Budget)
    requires pos <= |data|
    ensures Agrees(ReadList(data, pos, b), ReadList(data, pos, Noop))
    decreases |data| - pos, 3, 0
  {
    if ReadList(data, pos, b).Parsed? {
      var b1 := b.EnterDepth().value;
      ListBodyIgnoresLimiter(data, pos, b1);
      var u := ReadListBody(data, pos, Noop);
      FollowsNoop(u.budget);
    }
  }

  lemma {:induction false} ListBodyIgnoresLimiter(data: seq<u8>, pos: nat, b: Budget)
    requires pos <= |data|
    ensures Agrees(ReadListBody(data, pos, b), ReadListBody(data, pos, Noop))
    decreases |data| - pos, 2, 0
  {
    var r := ReadListBody(data, pos, b);
    if r.Parsed? {
      ListBodyShape(data, pos, b);
      var b1 := Charge(b, LIST_COST).value;
      var t := ReadTagType(data, pos, b1);
      var size := IntOf(data[pos + 1..pos + 5]);
      var b2 := Charge(b1, ListRefCharge(size)).value;
      NoopCharge(LIST_COST);
      NoopCharge(ListRefCharge(size));
      ElemsIgnoreLimiter(t.value, size, [], data, pos + 5, b2);
    }
  }

  lemma {:induction false} ElemsIgnoreLimiter(k: Kind, n: nat, acc: seq<Tag>, data: seq<u8>, pos: nat, b: Budget)
    requires pos <= |data|
    ensures Agrees(ReadElems(k, n, acc, data, pos, b), ReadElems(k, n, acc, data, pos, Noop))
    decreases |data| - pos, 5, n
  {
    if n > 0 && ReadElems(k, n, acc, data, pos, b).Parsed? {
      var first := ReadPayload(k, data, pos, b);
      PayloadIgnoresLimiter(k, data, pos, b);
      var u := ReadPayload(k, data, pos, Noop);
      FollowsNoop(u.budget);
      ElemsIgnoreLimiter(k, n - 1, acc + [first.value], data, first.pos, first.budget);
    }
  }

  lemma {:induction false} CompoundIgnoresLimiter(data: seq<u8>, pos: nat, b: Budget)
    requires pos <= |data|
    ensures Agrees(ReadCompound(data, pos, b), ReadCompound(data, pos, Noop))
    decreases |data| - pos, 3, 0
  {
    if ReadCompound(data, pos, b).Parsed? {
      var b1 := b.EnterDepth().value;
      assert ReadCompoundBody(data, pos, b1).Parsed?;
      var b2 := Charge(b1, COMPOUND_COST).value;
      NoopCharge(COMPOUND_COST);
      EntriesIgnoreLimiter([], data, pos, b2);
      var u := ReadEntries([], data, pos, Noop);
      FollowsNoop(u.budget);
    }
  }

  lemma {:induction false} EntriesIgnoreLimiter(acc: seq<Entry>, data: seq<u8>, pos: nat, b: Budget)
    requires pos <= |data|
    ensures Agrees(ReadEntries(acc, data, pos, b), ReadEntries(acc, data, pos, Noop))
    decreases |data| - pos, 1, 0
  {
    var r := ReadEntries(acc, data, pos, b);
    var t := ReadTagType(data, pos, b);
    if r.Parsed? && t.value != END {
      var e := ReadEntry(t.value, data, pos + 1, b);
      EntryIgnoresLimiter(t.value, data, pos + 1, b);
      var u := ReadEntry(t.value, data, pos + 1, Noop);
      FollowsNoop(u.budget);
      var b2 := EntryCharge(acc, e.value.name, e.budget).value;
      NoopCharge(ENTRY_COST);
      assert EntryCharge(acc, e.value.name, Noop) == Ok(Noop);
      EntriesIgnoreLimiter(SetTag(acc, e.value.name, e.value.tag), data, e.pos, b2);
    }
  }

  lemma {:induction false} EntryIgnoresLimiter(k: Kind, data: seq<u8>, pos: nat, b: Budget)
    requires pos <= |data|
    ensures Agrees(ReadEntry(k, data, pos, b), ReadEntry(k, data, pos, Noop))
    decreases |data| - pos, 0, 0
  {
    var r := ReadEntry(k, data, pos, b);
    if r.Parsed? {
      var s := ReadString(data, pos, b);
      StringIgnoresLimiter(data, pos, b);
      var u := ReadString(data, pos, Noop);
      FollowsNoop(u.budget);
      PayloadIgnoresLimiter(k, data, s.pos, s.budget);
    }
  }

  // ---------------------------------------------------------------------------
  // What a compound read keeps and charges

  /**
   * The entries of a compound in the order they stand on the wire, read
   * without limits up to END, with the position after END.
   */
  function WireEntries(data: seq<u8>, pos: nat): (r: Parsed<seq<Entry>>)
    requires pos <= |data|
    decreases |data| - pos
    ensures r.Parsed? ==> pos < r.pos <= |data|
  {
    match ReadTagType(data, pos, Noop)
    case Failed(e, _) => Failed(e, Noop)
    case Parsed(k, p, _) =>
      if k == END then Parsed([], p, Noop)
      else
        match ReadEntry(k, data, p, Noop)
        case Failed(e, _) => Failed(e, Noop)
        case Parsed(e, q, _) =>
          match WireEntries(data, q)
          case Failed(err, _) => Failed(err, Noop)
          case Parsed(es, q2, _) => Parsed([e] + es, q2, Noop)
  }

  /** `setTag` applied to `acc` for each entry of `es` in turn. */
  function SetAll(acc: seq<Entry>, es: seq<Entry>): seq<Entry>
    decreases |es|
  {
    if es == [] then acc else SetAll(SetTag(acc, es[0].name, es[0].tag), es[1..])
  }

  /** The tag of the last entry of `es` named `name`, if there is one. */
  function LastTag(es: seq<Entry>, name: JString): (r: Option<Tag>)
    ensures r.Some? <==> HasName(es, name)
  {
    if es == [] then None
    else
      TailHasName(es, name);
      var later := LastTag(es[1..], name);
      if later.Some? then later else if es[0].name == name then Some(es[0].tag) else None
  }

  /** The names of the entries of `es`. */
  function Names(es: seq<Entry>): set<JString>
  {
    set i | 0 <= i < |es| :: es[i].name
  }

  /** The names of `es` that `acc` does not hold yet. */
  function NewNames(acc: seq<Entry>, es: seq<Entry>): set<JString>
  {
    set n | n in Names(es) && !HasName(acc, n)
  }

  /** What `readString` charges for each name of `es`: 28 bytes and two per character. */
  function NameCharges(es: seq<Entry>): nat
  {
    if es == [] then 0 else STRING_SIZE_BYTES + 2 * |es[0].name| + NameCharges(es[1..])
  }

  /** After `setTag` the names held are the old ones and the new one. */
  lemma SetTagHasName(acc: seq<Entry>, name: JString, tag: Tag, n: JString)
    ensures HasName(SetTag(acc, name, tag), n) <==> n == name || HasName(acc, n)
  {
    SetTagGet(acc, name, tag);
  }

  /**
   * `setTag` for every entry: a name takes the tag of its last entry in `es`,
   * and a name `es` does not mention keeps the tag it had in `acc`.
   */
  lemma {:induction false} SetAllGet(acc: seq<Entry>, es: seq<Entry>, n: JString)
    ensures Get(SetAll(acc, es), n) == if HasName(es, n) then LastTag(es, n) else Get(acc, n)
    decreases |es|
  {
    if es != [] {
      var acc' := SetTag(acc, es[0].name, es[0].tag);
      SetAllGet(acc', es[1..], n);
      SetTagGet(acc, es[0].name, es[0].tag);
      TailHasName(es, n);
    }
  }

  /** The names of a non-empty sequence are the first entry's and those of the rest. */
  lemma NamesStep(es: seq<Entry>)
    requires es != []
    ensures Names(es) == {es[0].name} + Names(es[1..])
  {
    forall n | n in Names(es) ensures n in {es[0].name} + Names(es[1..]) {
      var i :| 0 <= i < |es| && es[i].name == n;
      if i > 0 { assert es[1..][i - 1].name == n; }
    }
    forall n | n in Names(es[1..]) ensures n in Names(es) {
      var i :| 0 <= i < |es[1..]| && es[1..][i].name == n;
      assert es[i + 1].name == n;
    }
  }

  /** The names `es` adds to `acc`: the first entry's when `acc` lacks it, and those the rest add after it. */
  lemma NewNamesSplit(acc: seq<Entry>, es: seq<Entry>)
    requires es != []
    ensures var rest := NewNames(SetTag(acc, es[0].name, es[0].tag), es[1..]);
      NewNames(acc, es) == (if HasName(acc, es[0].name) then rest else {es[0].name} + rest)
  {
    var name := es[0].name;
    var rest := NewNames(SetTag(acc, name, es[0].tag), es[1..]);
    NamesStep(es);
    forall n ensures n in NewNames(acc, es) <==> n in (if HasName(acc, name) then rest else {name} + rest) {
      SetTagHasName(acc, name, es[0].tag, n);
    }
  }

  /** The entry overhead of the first entry is new exactly when `acc` lacks its name, and the rest follow on. */
  lemma NewNamesStep(acc: seq<Entry>, es: seq<Entry>)
    requires es != []
    ensures |NewNames(acc, es)|
      == (if HasName(acc, es[0].name) then 0 else 1) + |NewNames(SetTag(acc, es[0].name, es[0].tag), es[1..])|
  {
    var name := es[0].name;
    var rest := NewNames(SetTag(acc, name, es[0].tag), es[1..]);
    NewNamesSplit(acc, es);
    if !HasName(acc, name) {
      SetTagHasName(acc, name, es[0].tag, name);
      assert name !in rest;
    }
  }

  /** A successful entry has had its name charged: 28 bytes and two per character. */
  lemma EntryChargesName(k: Kind, data: seq<u8>, pos: nat, b: Budget)
    requires pos <= |data| && b.Bounded?
    ensures ReadEntry(k, data, pos, b).Parsed? ==>
      ReadEntry(k, data, pos, b).budget.bytes >= b.bytes + STRING_SIZE_BYTES + 2 * |ReadEntry(k, data, pos, b).value.name|
  {
    var r := ReadEntry(k, data, pos, b);
    if r.Parsed? {
      var s := ReadString(data, pos, b);
      assert s.Parsed? && s.value == r.value.name;
      assert s.budget == b.Increment(STRING_SIZE_BYTES + 2 * |s.value|).value;
      IncrementSpec(b, STRING_SIZE_BYTES + 2 * |s.value|);
    }
  }

  /**
   * The compound loop, for every input and limiter state: when it succeeds,
   * the entries on the wire read without limits, it stops at the same byte,
   * and its result is `setTag` applied for each of them in turn.
   */
  lemma {:induction false} EntriesOnWire(acc: seq<Entry>, data: seq<u8>, pos: nat, b: Budget)
    requires pos <= |data|
    ensures ReadEntries(acc, data, pos, b).Parsed? ==>
      var r := ReadEntries(acc, data, pos, b);
      var w := WireEntries(data, pos);
      w.Parsed? && r.pos == w.pos && r.value == SetAll(acc, w.value)
    decreases |data| - pos
  {
    var r := ReadEntries(acc, data, pos, b);
    var t := ReadTagType(data, pos, b);
    if r.Parsed? && t.value != END {
      var e := ReadEntry(t.value, data, pos + 1, b);
      var acc' := SetTag(acc, e.value.name, e.value.tag);
      var b2 := EntryCharge(acc, e.value.name, e.budget).value;
      EntriesUnfold(acc, data, pos, b, t.value, e, b2);
      EntriesOnWire(acc', data, e.pos, b2);
      WireStep(data, pos, b, t.value, e);
    }
  }

  /** An entry read under any limiter is the first entry on the wire, and the rest of the wire follows it. */
  lemma WireStep(data: seq<u8>, pos: nat, b: Budget, k: Kind, e: Parsed<Entry>)
    requires pos < |data| && k != END
    requires ReadTagType(data, pos, b) == Parsed(k, pos + 1, b)
    requires e == ReadEntry(k, data, pos + 1, b) && e.Parsed?
    ensures WireEntries(data, e.pos).Parsed? ==>
      var rest := WireEntries(data, e.pos);
      WireEntries(data, pos) == Parsed([e.value] + rest.value, rest.pos, Noop)
      && ([e.value] + rest.value)[1..] == rest.value
  {
    EntryIgnoresLimiter(k, data, pos + 1, b);
  }

  /**
   * Under a buffer limiter, a successful compound loop has charged at least
   * every name on the wire, and the 36-byte entry overhead once for each
   * name `acc` did not hold.
   */
  lemma {:induction false} EntriesCharge(acc: seq<Entry>, data: seq<u8>, pos: nat, b: Budget)
    requires pos <= |data| && b.Bounded?
    ensures ReadEntries(acc, data, pos, b).Parsed? ==>
      var w := WireEntries(data, pos);
      w.Parsed? && ReadEntries(acc, data, pos, b).budget.bytes >= b.bytes + NameCharges(w.value) + ENTRY_COST * |NewNames(acc, w.value)|
    decreases |data| - pos
  {
    var r := ReadEntries(acc, data, pos, b);
    var t := ReadTagType(data, pos, b);
    if r.Parsed? {
      if t.value == END {
        EntriesOnWire(acc, data, pos, b);
      } else {
        var e := ReadEntry(t.value, data, pos + 1, b);
        var b2 := EntryCharge(acc, e.value.name, e.budget).value;
        EntriesCharge(SetTag(acc, e.value.name, e.value.tag), data, e.pos, b2);
        EntriesChargeStep(acc, data, pos, b, t.value, e, b2);
      }
    }
  }

  /** The charge bound for a compound loop that reads one more entry before the rest. */
  lemma EntriesChargeStep(acc: seq<Entry>, data: seq<u8>, pos: nat, b: Budget, k: Kind, e: Parsed<Entry>, b2: Budget)
    requires pos < |data| && b.Bounded? && k != END
    requires ReadTagType(data, pos, b) == Parsed(k, pos + 1, b)
    requires e == ReadEntry(k, data, pos + 1, b) && e.Parsed?
    requires EntryCharge(acc, e.value.name, e.budget) == Ok(b2)
    requires b2.Bounded?
    requires var acc' := SetTag(acc, e.value.name, e.value.tag);
      ReadEntries(acc', data, e.pos, b2).Parsed? ==>
      var w := WireEntries(data, e.pos);
      w.Parsed? && ReadEntries(acc', data, e.pos, b2).budget.bytes >= b2.bytes + NameCharges(w.value) + ENTRY_COST * |NewNames(acc', w.value)|
    ensures ReadEntries(acc, data, pos, b).Parsed? ==>
      var w := WireEntries(data, pos);
      w.Parsed? && ReadEntries(acc, data, pos, b).budget.bytes >= b.bytes + NameCharges(w.value) + ENTRY_COST * |NewNames(acc, w.value)|
  {
    var acc' := SetTag(acc, e.value.name, e.value.tag);
    EntriesUnfold(acc, data, pos, b, k, e, b2);
    EntriesStepCharge(acc, data, pos, b, k, e, b2);
    var r := ReadEntries(acc, data, pos, b);
    if r.Parsed? {
      var w := WireEntries(data, pos).value;
      var rest := WireEntries(data, e.pos).value;
      var added := if HasName(acc, e.value.name) then 0 else 1;
      ChargeSum(r.budget.bytes, b.bytes, b2.bytes, NameCharges(w), NameCharges(rest),
        |NewNames(acc, w)|, |NewNames(acc', rest)|, STRING_SIZE_BYTES + 2 * |e.value.name|, added);
    }
  }

  /** The charges of one entry and of the entries after it add up. */
  lemma ChargeSum(total: int, start: int, mid: int, names: int, restNames: int, newNames: int, restNew: int, name: int, added: int)
    requires total >= mid + restNames + ENTRY_COST * restNew
    requires names == name + restNames && newNames == added + restNew
    requires mid >= start + name + ENTRY_COST * added
    ensures total >= start + names + ENTRY_COST * newNames
  {
  }

  /** The compound loop after one entry is the loop on the rest with that entry set. */
  lemma EntriesUnfold(acc: seq<Entry>, data: seq<u8>, pos: nat, b: Budget, k: Kind, e: Parsed<Entry>, b2: Budget)
    requires pos < |data| && k != END
    requires ReadTagType(data, pos, b) == Parsed(k, pos + 1, b)
    requires e == ReadEntry(k, data, pos + 1, b) && e.Parsed?
    requires EntryCharge(acc, e.value.name, e.budget) == Ok(b2)
    ensures ReadEntries(acc, data, pos, b) == ReadEntries(SetTag(acc, e.value.name, e.value.tag), data, e.pos, b2)
  {
  }

  /** One turn of the compound loop, with what it charges and what it finds on the wire. */
  lemma EntriesStepCharge(acc: seq<Entry>, data: seq<u8>, pos: nat, b: Budget, k: Kind, e: Parsed<Entry>, b2: Budget)
    requires pos < |data| && b.Bounded? && k != END
    requires ReadTagType(data, pos, b) == Parsed(k, pos + 1, b)
    requires e == ReadEntry(k, data, pos + 1, b) && e.Parsed?
    requires EntryCharge(acc, e.value.name, e.budget) == Ok(b2)
    ensures b2.Bounded?
    ensures WireEntries(data, pos).Parsed? <==> WireEntries(data, e.pos).Parsed?
    ensures WireEntries(data, pos).Parsed? ==>
      var w := WireEntries(data, pos).value;
      var rest := WireEntries(data, e.pos).value;
      && NameCharges(w) == STRING_SIZE_BYTES + 2 * |e.value.name| + NameCharges(rest)
      && |NewNames(acc, w)| == (if HasName(acc, e.value.name) then 0 else 1)
        + |NewNames(SetTag(acc, e.value.name, e.value.tag), rest)|
      && b2.bytes >= b.bytes + STRING_SIZE_BYTES + 2 * |e.value.name| + (if HasName(acc, e.value.name) then 0 else ENTRY_COST)
  {
    EntryIgnoresLimiter(k, data, pos + 1, b);
    EntryChargesName(k, data, pos + 1, b);
    if !HasName(acc, e.value.name) {
      IncrementSpec(e.budget, ENTRY_COST);
    }
    var rest := WireEntries(data, e.pos);
    if rest.Parsed? {
      var w := [e.value] + rest.value;
      assert WireEntries(data, pos) == Parsed(w, rest.pos, Noop);
      assert w[0] == e.value && w[1..] == rest.value;
      NewNamesStep(acc, w);
    }
  }

  /**
   * A compound read, for every input and limiter state that accepts it:
   * every name maps to the tag of its last entry on the wire and no other
   * name is present, the read stops after the wire's END, and under a buffer
   * limiter the map's overhead, every name, and 36 bytes per distinct name
   * were charged.
   */
  lemma CompoundLastWriteWins(data: seq<u8>, pos: nat, b: Budget)
    requires pos <= |data|
    ensures ReadCompound(data, pos, b).Parsed? ==>
      var r := ReadCompound(data, pos, b);
      var w := WireEntries(data, pos);
      && w.Parsed? && r.pos == w.pos
      && (forall n :: Get(r.value.entries, n) == LastTag(w.value, n))
      && (b.Bounded? ==> r.budget.bytes >= b.bytes + COMPOUND_COST + NameCharges(w.value) + ENTRY_COST * |Names(w.value)|)
  {
    var r := ReadCompound(data, pos, b);
    if r.Parsed? {
      var b1 := b.EnterDepth().value;
      assert ReadCompoundBody(data, pos, b1).Parsed?;
      var b2 := Charge(b1, COMPOUND_COST).value;
      EntriesOnWire([], data, pos, b2);
      if b.Bounded? {
        EntriesCharge([], data, pos, b2);
      }
      var w := WireEntries(data, pos);
      forall n ensures Get(r.value.entries, n) == LastTag(w.value, n) {
        SetAllGet([], w.value, n);
      }
      assert NewNames([], w.value) == Names(w.value);
      if b.Bounded? {
        IncrementSpec(b1, COMPOUND_COST);
      }
    }
  }
}
