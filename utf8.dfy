/**
 * UTF-8 (RFC 3629), the encoding `Buffer.from(string)` applies by default
 * before the bytes are Base64-encoded.
 */
module Utf8 {
  import opened Options
  import opened Bytes

  /** A continuation byte `10xxxxxx` carrying the low six bits of `v`. */
  function Cont(v: int): byte
    requires v >= 0
  {
    0x80 + v % 64
  }

  /** The one to four bytes of a scalar value, shortest form. */
  function EncodeChar(c: char): (bs: seq<byte>)
    ensures 1 <= |bs| <= 4
    ensures c as int < 0x80 ==> bs == [c as int]
  {
    var v := c as int;
    if v < 0x80 then [v]
    else if v < 0x800 then [0xC0 + v / 64, Cont(v)]
    else if v < 0x10000 then [0xE0 + v / 64 / 64, Cont(v / 64), Cont(v)]
    else [0xF0 + v / 64 / 64 / 64, Cont(v / 64 / 64), Cont(v / 64), Cont(v)]
  }

  /** The UTF-8 bytes of a string: one to four per character. */
  function Encode(s: string): (r: seq<byte>)
    ensures |s| <= |r| <= 4 * |s|
    decreases |s|
  {
    if |s| == 0 then [] else EncodeChar(s[0]) + Encode(s[1..])
  }

  predicate IsCont(b: byte)
  {
    0x80 <= b < 0xC0
  }

  /** A scalar value as a character, or None for surrogates and values past U+10FFFF. */
  function ToChar(v: int): Option<char>
    requires v >= 0
  {
    if v < 0xD800 || (0xE000 <= v < 0x110000) then Some(v as char) else None
  }

  /** The character a scalar value denotes, paired with the number of bytes it took. */
  function Decoded(v: int, n: nat): Option<(char, nat)>
    requires v >= 0
  {
    match ToChar(v)
    case None => None
    case Some(c) => Some((c, n))
  }

  /** The character at the front of `bs` and the number of bytes it takes, or None. */
  function DecodeChar(bs: seq<byte>): (r: Option<(char, nat)>)
    ensures r.Some? ==> 1 <= r.value.1 <= |bs|
  {
    if |bs| == 0 then None
    else
      var b0 := bs[0] as int;
      if b0 < 0x80 then Decoded(b0, 1)
      else if b0 < 0xC0 then None
      else if b0 < 0xE0 then
        if |bs| < 2 || !IsCont(bs[1]) then None
        else Decoded((b0 - 0xC0) * 64 + (bs[1] - 0x80), 2)
      else if b0 < 0xF0 then
        if |bs| < 3 || !IsCont(bs[1]) || !IsCont(bs[2]) then None
        else Decoded(((b0 - 0xE0) * 64 + (bs[1] - 0x80)) * 64 + (bs[2] - 0x80), 3)
      else if b0 < 0xF8 then
        if |bs| < 4 || !IsCont(bs[1]) || !IsCont(bs[2]) || !IsCont(bs[3]) then None
        else Decoded((((b0 - 0xF0) * 64 + (bs[1] - 0x80)) * 64 + (bs[2] - 0x80)) * 64 + (bs[3] - 0x80), 4)
      else None
  }

  function Decode(bs: seq<byte>): Option<string>
    decreases |bs|
  {
    if |bs| == 0 then Some("")
    else
      match DecodeChar(bs)
      case None => None
      case Some((c, n)) =>
        match Decode(bs[n..])
        case None => None
        case Some(rest) => Some([c] + rest)
  }

  /** The bytes of one character decode to that character, whatever follows them. */
  lemma DecodeEncodeChar(c: char, tail: seq<byte>)
    ensures DecodeChar(EncodeChar(c) + tail) == Some((c, |EncodeChar(c)|))
  {
    var v := c as int;
    if v < 0x80 {
    } else if v < 0x800 {
      DecodeTwo(c, tail);
    } else if v < 0x10000 {
      DecodeThree(c, tail);
    } else {
      DecodeFour(c, tail);
    }
  }

  lemma DecodeTwo(c: char, tail: seq<byte>)
    requires 0x80 <= c as int < 0x800
    ensures DecodeChar(EncodeChar(c) + tail) == Some((c, 2))
  {
    var v := c as int;
    var bs := EncodeChar(c) + tail;
    assert bs[0] == 0xC0 + v / 64 && bs[1] == Cont(v);
    assert (bs[0] as int - 0xC0) * 64 + (bs[1] as int - 0x80) == v;
  }

  lemma DecodeThree(c: char, tail: seq<byte>)
    requires 0x800 <= c as int < 0x10000
    ensures DecodeChar(EncodeChar(c) + tail) == Some((c, 3))
  {
    var v := c as int;
    var bs := EncodeChar(c) + tail;
    assert bs[0] == 0xE0 + v / 64 / 64 && bs[1] == Cont(v / 64) && bs[2] == Cont(v);
    assert (bs[0] as int - 0xE0) * 64 + (bs[1] as int - 0x80) == v / 64;
    assert ((bs[0] as int - 0xE0) * 64 + (bs[1] as int - 0x80)) * 64 + (bs[2] as int - 0x80) == v;
  }

  lemma DecodeFour(c: char, tail: seq<byte>)
    requires 0x10000 <= c as int
    ensures DecodeChar(EncodeChar(c) + tail) == Some((c, 4))
  {
    var v := c as int;
    var bs := EncodeChar(c) + tail;
    assert bs[0] == 0xF0 + v / 64 / 64 / 64 && bs[1] == Cont(v / 64 / 64);
    assert bs[2] == Cont(v / 64) && bs[3] == Cont(v);
    assert (bs[0] as int - 0xF0) * 64 + (bs[1] as int - 0x80) == v / 64 / 64;
    assert ((bs[0] as int - 0xF0) * 64 + (bs[1] as int - 0x80)) * 64 + (bs[2] as int - 0x80) == v / 64;
    assert (((bs[0] as int - 0xF0) * 64 + (bs[1] as int - 0x80)) * 64 + (bs[2] as int - 0x80)) * 64 + (bs[3] as int - 0x80) == v;
  }

  lemma {:induction false} DecodeEncode(s: string)
    ensures Decode(Encode(s)) == Some(s)
    decreases |s|
  {
    if |s| > 0 {
      var head := EncodeChar(s[0]);
      var tail := Encode(s[1..]);
      DecodeEncodeChar(s[0], tail);
      assert (head + tail)[|head|..] == tail;
      DecodeEncode(s[1..]);
      assert [s[0]] + s[1..] == s;
    }
  }

  /** Encoding distributes over concatenation. */
  lemma {:induction false} EncodeAppend(a: string, b: string)
    ensures Encode(a + b) == Encode(a) + Encode(b)
    decreases |a|
  {
    if |a| > 0 {
      assert (a + b)[1..] == a[1..] + b;
      EncodeAppend(a[1..], b);
    } else {
      assert a + b == b;
    }
  }
}
