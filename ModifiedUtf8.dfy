/**
 * The string framing of `DataOutput.writeUTF` / `DataInput.readUTF`: an
 * unsigned 16-bit byte count followed by the string's UTF-16 code units in
 * "modified UTF-8" (U+0000 takes two bytes, surrogates are encoded one unit
 * at a time).
 */
module ModifiedUtf8 {
  import opened Wrappers
  import opened JavaInts

  type u16 = x: int | 0 <= x < 0x1_0000

  /** A Java `String`: a sequence of UTF-16 code units. */
  type JString = seq<u16>

  /** A Java string literal: each character of the Basic Multilingual Plane is one code unit. */
  function Literal(s: string): (r: JString)
    requires forall i :: 0 <= i < |s| ==> s[i] as int < 0x1_0000
    ensures |r| == |s| && forall i :: 0 <= i < |s| ==> r[i] == s[i] as int
  {
    seq(|s|, i requires 0 <= i < |s| => s[i] as int)
  }

  /** The largest byte count the 16-bit frame can carry. */
  const MAX_UTF_LENGTH: int := 0xFFFF

  /** The one to three bytes `writeUTF` emits for one code unit. */
  function UnitBytes(c: u16): (r: seq<u8>)
    ensures 1 <= |r| <= 3
  {
    if 1 <= c <= 0x7F then [c]
    else if c <= 0x7FF then [0xC0 + c / 64, 0x80 + c % 64]
    else [0xE0 + c / 4096, 0x80 + (c / 64) % 64, 0x80 + c % 64]
  }

  function Encode(s: JString): (r: seq<u8>)
    ensures |s| <= |r| <= 3 * |s|
  {
    if s == [] then [] else UnitBytes(s[0]) + Encode(s[1..])
  }

  function Cons(c: u16, rest: Option<JString>): Option<JString>
  {
    if rest.Some? then Some([c] + rest.value) else None
  }

  /**
   * The decoding loop of `readUTF` over the framed bytes: a byte below 0x80
   * is a unit on its own, 110xxxxx and 1110xxxx start two- and three-byte
   * units whose continuation bytes must be 10xxxxxx; anything else, or a
   * unit cut off by the end of the frame, is malformed (`None`).
   */
  function Decode(bs: seq<u8>): (r: Option<JString>)
    ensures r.Some? ==> |r.value| <= |bs|
    decreases |bs|
  {
    if bs == [] then Some([])
    else
      var c: int := bs[0];
      var c2: int := if |bs| >= 2 then bs[1] else 0;
      var c3: int := if |bs| >= 3 then bs[2] else 0;
      if c < 0x80 then Cons(c, Decode(bs[1..]))
      else if c / 16 == 12 || c / 16 == 13 then
        if |bs| < 2 || c2 / 64 != 2 then None
        else Cons((c % 32) * 64 + c2 % 64, Decode(bs[2..]))
      else if c / 16 == 14 then
        if |bs| < 3 || c2 / 64 != 2 || c3 / 64 != 2 then None
        else Cons((c % 16) * 4096 + (c2 % 64) * 64 + c3 % 64, Decode(bs[3..]))
      else None
  }

  /** One code unit's bytes decode back to that unit, whatever follows. */
  lemma UnitRoundTrip(c: u16, rest: seq<u8>)
    ensures Decode(UnitBytes(c) + rest) == Cons(c, Decode(rest))
  {
    if 1 <= c <= 0x7F {
      assert (UnitBytes(c) + rest)[1..] == rest;
    } else if c <= 0x7FF {
      TwoByteRoundTrip(c, rest);
    } else {
      ThreeByteRoundTrip(c, rest);
    }
  }

  lemma TwoByteRoundTrip(c: u16, rest: seq<u8>)
    requires (c == 0 || 0x80 <= c) && c <= 0x7FF
    ensures Decode(UnitBytes(c) + rest) == Cons(c, Decode(rest))
  {
    var bs := UnitBytes(c) + rest;
    assert bs[2..] == rest;
    assert (c / 64) * 64 + c % 64 == c;
  }

  lemma ThreeByteRoundTrip(c: u16, rest: seq<u8>)
    requires 0x800 <= c
    ensures Decode(UnitBytes(c) + rest) == Cons(c, Decode(rest))
  {
    var bs := UnitBytes(c) + rest;
    assert bs[3..] == rest;
    assert (c / 4096) * 4096 + ((c / 64) % 64) * 64 + c % 64 == c by {
      assert c / 64 == (c / 4096) * 64 + (c / 64) % 64;
    }
  }

  /** `readUTF` recovers exactly the string `writeUTF` encoded. */
  lemma {:induction false} RoundTrip(s: JString)
    ensures Decode(Encode(s)) == Some(s)
  {
    if s != [] {
      RoundTrip(s[1..]);
      UnitRoundTrip(s[0], Encode(s[1..]));
      assert [s[0]] + s[1..] == s;
    }
  }

  /** The bytes `writeUTF` emits: the 16-bit count, then the encoding; it throws when the count does not fit. */
  function WriteUtf(s: JString): (r: Result<seq<u8>, string>)
    ensures r.Ok? <==> |Encode(s)| <= MAX_UTF_LENGTH
    ensures r.Ok? ==> |r.value| == 2 + |Encode(s)|
  {
    var e := Encode(s);
    if |e| > MAX_UTF_LENGTH then Err("encoded string too long") else Ok(ShortBytes(|e|) + e)
  }
}
