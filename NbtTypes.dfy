/**
 * The NBT tag tree: the thirteen kinds with their registered ids, the tag
 * values, the compound's name-to-tag map, and the errors the codecs raise.
 */
module NbtTypes {
  import opened Wrappers
  import opened JavaInts
  import opened ModifiedUtf8
  import opened NbtLimiter

  datatype Kind =
    | END | BYTE | SHORT | INT | LONG | FLOAT | DOUBLE
    | BYTE_ARRAY | STRING | LIST | COMPOUND | INT_ARRAY | LONG_ARRAY

  /** The id each kind is registered under. */
  function Id(k: Kind): (id: u8)
    ensures id <= 12
  {
    match k
    case END => 0
    case BYTE => 1
    case SHORT => 2
    case INT => 3
    case LONG => 4
    case FLOAT => 5
    case DOUBLE => 6
    case BYTE_ARRAY => 7
    case STRING => 8
    case LIST => 9
    case COMPOUND => 10
    case INT_ARRAY => 11
    case LONG_ARRAY => 12
  }

  /** The kind registered under an id read from the wire, if any. */
  function KindOf(id: int): Option<Kind>
  {
    match id
    case 0 => Some(END)
    case 1 => Some(BYTE)
    case 2 => Some(SHORT)
    case 3 => Some(INT)
    case 4 => Some(LONG)
    case 5 => Some(FLOAT)
    case 6 => Some(DOUBLE)
    case 7 => Some(BYTE_ARRAY)
    case 8 => Some(STRING)
    case 9 => Some(LIST)
    case 10 => Some(COMPOUND)
    case 11 => Some(INT_ARRAY)
    case 12 => Some(LONG_ARRAY)
    case _ => None
  }

  /** The registration is a bijection between the kinds and the ids 0..12. */
  lemma IdsAreDistinct(k: Kind, k': Kind, id: int)
    ensures KindOf(Id(k)) == Some(k)
    ensures Id(k) == Id(k') ==> k == k'
    ensures KindOf(id).Some? <==> 0 <= id <= 12
    ensures KindOf(id).Some? ==> Id(KindOf(id).value) == id
  {
  }

  datatype Tag =
    | End
    | Byte(v: int)
    | Short(v: int)
    | Int(v: int)
    | Long(v: int)
    | Float(bits: int)
    | Double(bits: int)
    | ByteArray(bytes: seq<int>)
    | String(s: JString)
    | List(elemKind: Kind, items: seq<Tag>)
    | Compound(entries: seq<Entry>)
    | IntArray(ints: seq<int>)
    | LongArray(longs: seq<int>)
  {
    function Kind(): Kind
    {
      match this
      case End => END
      case Byte(_) => BYTE
      case Short(_) => SHORT
      case Int(_) => INT
      case Long(_) => LONG
      case Float(_) => FLOAT
      case Double(_) => DOUBLE
      case ByteArray(_) => BYTE_ARRAY
      case String(_) => STRING
      case List(_, _) => LIST
      case Compound(_) => COMPOUND
      case IntArray(_) => INT_ARRAY
      case LongArray(_) => LONG_ARRAY
    }
  }

  /** One name-to-tag mapping of a compound; a compound keeps its entries in insertion order. */
  datatype Entry = Entry(name: JString, tag: Tag)

  predicate HasName(entries: seq<Entry>, name: JString)
  {
    exists i :: 0 <= i < |entries| && entries[i].name == name
  }

  predicate DistinctNames(entries: seq<Entry>)
  {
    forall i, j :: 0 <= i < j < |entries| ==> entries[i].name != entries[j].name
  }

  /** The tag stored under `name`, if any (the first entry with that name). */
  function Get(entries: seq<Entry>, name: JString): (r: Option<Tag>)
    ensures r.Some? <==> HasName(entries, name)
  {
    if entries == [] then None
    else if entries[0].name == name then Some(entries[0].tag)
    else
      var r := Get(entries[1..], name);
      assert HasName(entries[1..], name) ==> HasName(entries, name) by {
        if HasName(entries[1..], name) {
          var i :| 0 <= i < |entries[1..]| && entries[1..][i].name == name;
          assert entries[i + 1].name == name;
        }
      }
      assert HasName(entries, name) && entries[0].name != name ==> HasName(entries[1..], name) by {
        if HasName(entries, name) && entries[0].name != name {
          var i :| 0 <= i < |entries| && entries[i].name == name;
          assert entries[1..][i - 1].name == name;
        }
      }
      r
  }

  /**
   * `setTag(name, tag)`: a new name is appended; an existing name keeps its
   * position and takes the new value (the last write wins).
   */
  function SetTag(entries: seq<Entry>, name: JString, tag: Tag): (r: seq<Entry>)
    ensures |r| == if HasName(entries, name) then |entries| else |entries| + 1
  {
    if entries == [] then [Entry(name, tag)]
    else if entries[0].name == name then [Entry(name, tag)] + entries[1..]
    else
      TailHasName(entries, name);
      [entries[0]] + SetTag(entries[1..], name, tag)
  }

  /** After `SetTag` every name is the new one or an old one, and distinct names stay distinct. */
  lemma {:induction false} SetTagNames(entries: seq<Entry>, name: JString, tag: Tag)
    ensures forall i :: 0 <= i < |SetTag(entries, name, tag)| ==>
      SetTag(entries, name, tag)[i].name == name || HasName(entries, SetTag(entries, name, tag)[i].name)
    ensures DistinctNames(entries) ==> DistinctNames(SetTag(entries, name, tag))
  {
    var r := SetTag(entries, name, tag);
    if entries == [] {
    } else if entries[0].name == name {
      assert forall i :: 1 <= i < |r| ==> r[i] == entries[i];
    } else {
      var rest := SetTag(entries[1..], name, tag);
      SetTagNames(entries[1..], name, tag);
      TailHasName(entries, name);
      assert r == [entries[0]] + rest;
      forall i | 0 <= i < |r| ensures r[i].name == name || HasName(entries, r[i].name) {
        if i > 0 && r[i].name != name {
          assert r[i] == rest[i - 1];
          TailHasName(entries, r[i].name);
        }
      }
      if DistinctNames(entries) {
        TailDistinct(entries);
        forall i, j | 0 <= i < j < |r| ensures r[i].name != r[j].name {
          assert r[j] == rest[j - 1];
          if i == 0 {
            if r[j].name != name {
              TailHasName(entries, r[j].name);
              NotInTail(entries);
            }
          } else {
            assert r[i] == rest[i - 1];
          }
        }
      }
    }
  }

  /** `getTagOrNull` after `setTag`: the name maps to the new tag and every other name is unaffected. */
  lemma {:induction false} SetTagGet(entries: seq<Entry>, name: JString, tag: Tag)
    ensures Get(SetTag(entries, name, tag), name) == Some(tag)
    ensures forall n :: n != name ==> Get(SetTag(entries, name, tag), n) == Get(entries, n)
  {
    var r := SetTag(entries, name, tag);
    if entries != [] && entries[0].name == name {
      assert r[1..] == entries[1..];
    } else if entries != [] {
      SetTagGet(entries[1..], name, tag);
      assert r[1..] == SetTag(entries[1..], name, tag);
    }
  }

  /** Every name of `entries` is still there after `SetTag`. */
  lemma SetTagKeepsNames(entries: seq<Entry>, name: JString, tag: Tag)
    ensures forall i :: 0 <= i < |entries| ==> HasName(SetTag(entries, name, tag), entries[i].name)
  {
    var r := SetTag(entries, name, tag);
    SetTagGet(entries, name, tag);
    forall i | 0 <= i < |entries| ensures HasName(r, entries[i].name) {
      if entries[i].name != name {
        assert HasName(entries, entries[i].name);
        assert Get(r, entries[i].name) == Get(entries, entries[i].name);
      }
    }
  }

  /** Setting a name the compound does not have yet appends one entry at the end. */
  lemma {:induction false} SetTagAppends(entries: seq<Entry>, name: JString, tag: Tag)
    requires !HasName(entries, name)
    ensures SetTag(entries, name, tag) == entries + [Entry(name, tag)]
  {
    if entries != [] {
      TailHasName(entries, name);
      SetTagAppends(entries[1..], name, tag);
      assert [entries[0]] + (entries[1..] + [Entry(name, tag)]) == entries + [Entry(name, tag)];
    }
  }

  lemma TailHasName(entries: seq<Entry>, name: JString)
    requires entries != []
    ensures HasName(entries, name) <==> entries[0].name == name || HasName(entries[1..], name)
  {
    if HasName(entries, name) && entries[0].name != name {
      var i :| 0 <= i < |entries| && entries[i].name == name;
      assert entries[1..][i - 1].name == name;
    }
    if HasName(entries[1..], name) {
      var i :| 0 <= i < |entries[1..]| && entries[1..][i].name == name;
      assert entries[i + 1].name == name;
    }
  }

  lemma TailDistinct(entries: seq<Entry>)
    requires entries != [] && DistinctNames(entries)
    ensures DistinctNames(entries[1..])
  {
    forall i, j | 0 <= i < j < |entries[1..]| ensures entries[1..][i].name != entries[1..][j].name {
      assert entries[1..][i] == entries[i + 1] && entries[1..][j] == entries[j + 1];
    }
  }

  lemma NotInTail(entries: seq<Entry>)
    requires entries != [] && DistinctNames(entries)
    ensures !HasName(entries[1..], entries[0].name)
  {
    forall k | 0 <= k < |entries[1..]| ensures entries[1..][k].name != entries[0].name {
      assert entries[1..][k] == entries[k + 1];
    }
  }

  datatype Error =
    | Limit(cause: LimitError)     // the limiter refused a charge, a read or a depth change
    | EndOfStream                  // `EOFException`
    | UnknownTagType(id: int)      // an id no kind is registered under
    | ArrayTooLarge(length: int)   // an array header of 2^24 or more
    | NegativeArraySize(length: int)
    | MissingListType              // a non-empty list of END elements
    | NegativeListSize(size: int)  // `new NBTList(type, size)` with `size < 0`
    | MalformedUtf                 // `UTFDataFormatException`
    | NoSkipper                    // a kind with no entry in the skip table
    | IllegalState                 // a cursor advanced before its nested cursor was finished
    | NoMoreElements               // `next` on an exhausted cursor
    | Unusable                     // a cursor after an exception interrupted it

  /**
   * Tags the writer can emit and the reader gives back unchanged: values in
   * the range of their Java type, float and double bit patterns that are not
   * a non-canonical NaN, arrays shorter than 2^24, strings whose
   * encoding fits the 16-bit frame, lists whose elements all have the list's
   * kind (and no END list with elements), and compounds with distinct names
   * and no END values.
   */
  predicate WellFormed(t: Tag)
  {
    match t
    case End => true
    case Byte(v) => IsByte(v)
    case Short(v) => IsShort(v)
    case Int(v) => IsInt(v)
    case Long(v) => IsLong(v)
    case Float(bits) => 0 <= bits < TWO_32 && FloatToIntBits(bits) == bits
    case Double(bits) => 0 <= bits < TWO_64 && DoubleToLongBits(bits) == bits
    case ByteArray(a) => |a| < TWO_24 && forall i :: 0 <= i < |a| ==> IsByte(a[i])
    case String(s) => |Encode(s)| <= MAX_UTF_LENGTH
    case List(k, items) =>
      |items| < TWO_31 && (k == END ==> |items| == 0)
      && forall i :: 0 <= i < |items| ==> items[i].Kind() == k && WellFormed(items[i])
    case Compound(entries) =>
      DistinctNames(entries)
      && forall i :: 0 <= i < |entries| ==>
           entries[i].tag.Kind() != END && |Encode(entries[i].name)| <= MAX_UTF_LENGTH
           && WellFormed(entries[i].tag)
    case IntArray(a) => |a| < TWO_24 && forall i :: 0 <= i < |a| ==> IsInt(a[i])
    case LongArray(a) => |a| < TWO_24 && forall i :: 0 <= i < |a| ==> IsLong(a[i])
  }
}
