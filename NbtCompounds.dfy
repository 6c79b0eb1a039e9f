/**
 * The `NBTCompound` accessors the component codecs use, over a compound's
 * entries. Their Java bodies are not part of this model; each is stated
 * here as its name and its use in the components describe it.
 */
module NbtCompounds {
  import opened Wrappers
  import opened ModifiedUtf8
  import opened NbtTypes
  import C = NbtCodecs

  /** `getOrNull(key, codec)`: nothing when the key is absent, else the codec's decoding of its tag. */
  function GetOrNull<T>(entries: seq<Entry>, key: JString, codec: C.Codec<T>): (r: Result<Option<T>, C.CodecError>)
    ensures !HasName(entries, key) <==> r == Ok(None)
  {
    match Get(entries, key)
    case None => Ok(None)
    case Some(t) =>
      match codec.decode(t)
      case Err(e) => Err(e)
      case Ok(v) => Ok(Some(v))
  }

  /** `getOr(key, codec, fallback)` and `getOrSupply`: the fallback when the key is absent. */
  function GetOr<T>(entries: seq<Entry>, key: JString, codec: C.Codec<T>, fallback: T): (r: Result<T, C.CodecError>)
    ensures !HasName(entries, key) ==> r == Ok(fallback)
  {
    match Get(entries, key)
    case None => Ok(fallback)
    case Some(t) => codec.decode(t)
  }

  /** `getStringTagValueOrNull(key)`: the value of a STRING tag, else nothing. */
  function GetStringOrNull(entries: seq<Entry>, key: JString): (r: Option<JString>)
    ensures r.Some? <==> Get(entries, key).Some? && Get(entries, key).value.String?
  {
    match Get(entries, key)
    case Some(String(s)) => Some(s)
    case _ => None
  }

  /** `getStringTagValueOrThrow(key)`: a missing key or a tag of another kind is an error. */
  function GetStringOrThrow(entries: seq<Entry>, key: JString): (r: Result<JString, C.CodecError>)
    ensures r.Ok? <==> GetStringOrNull(entries, key).Some?
    ensures r.Ok? ==> r.value == GetStringOrNull(entries, key).value
  {
    match Get(entries, key)
    case None => Err(C.MissingKey(key))
    case Some(String(s)) => Ok(s)
    case Some(_) => Err(C.NotA(STRING))
  }

  /**
   * `getNumberTagValueOrDefault(key, fallback).floatValue()`: a FLOAT tag's
   * own bits; another number converted by `asFloat` (Java's conversion to
   * `float`, which is not part of this model); anything else the fallback.
   */
  function GetFloatOr(entries: seq<Entry>, key: JString, fallback: int, asFloat: Tag -> int): int
  {
    match Get(entries, key)
    case Some(Float(bits)) => bits
    case Some(t) => if t.Byte? || t.Short? || t.Int? || t.Long? || t.Double? then asFloat(t) else fallback
    case None => fallback
  }

  /** `set(key, value, codec)`: `setTag(key, codec.encode(value))`. */
  function Set<T>(entries: seq<Entry>, key: JString, value: T, codec: C.Codec<T>): seq<Entry>
  {
    SetTag(entries, key, codec.encode(value))
  }

  /** `if (value != null) set(key, value, codec)`: the key is set exactly when there is a value, and no other key changes. */
  function SetIfPresent<T>(entries: seq<Entry>, key: JString, value: Option<T>, codec: C.Codec<T>): (r: seq<Entry>)
    ensures Get(r, key) == if value.Some? then Some(codec.encode(value.value)) else Get(entries, key)
    ensures forall n :: n != key ==> Get(r, n) == Get(entries, n)
  {
    if value.Some? then
      SetTagGet(entries, key, codec.encode(value.value));
      Set(entries, key, value.value, codec)
    else entries
  }

  /** A value stored with a round-tripping codec is read back with `getOrNull`, and with `getOr`. */
  lemma GetAfterSet<T>(entries: seq<Entry>, key: JString, value: T, codec: C.Codec<T>, fallback: T)
    requires codec.decode(codec.encode(value)) == Ok(value)
    ensures GetOrNull(Set(entries, key, value, codec), key, codec) == Ok(Some(value))
    ensures GetOr(Set(entries, key, value, codec), key, codec, fallback) == Ok(value)
  {
    SetTagGet(entries, key, codec.encode(value));
  }
}
