/**
 * The base 64 encoding of section 4 of RFC 4648 (alphabet of Table 1, `=`
 * padding), as `Buffer.prototype.toString('base64')` produces it, with a
 * decoder as its partner.
 */
module Base64 {
  import opened Options
  import opened Bytes

  /** The alphabet character of a six-bit value (RFC 4648, Table 1). */
  function Digit(v: int): (c: char)
    requires 0 <= v < 64
    ensures IsDigit(c) && DigitValue(c) == Some(v)
  {
    if v < 26 then ('A' as int + v) as char
    else if v < 52 then ('a' as int + (v - 26)) as char
    else if v < 62 then ('0' as int + (v - 52)) as char
    else if v == 62 then '+'
    else '/'
  }

  predicate IsDigit(c: char)
  {
    'A' <= c <= 'Z' || 'a' <= c <= 'z' || '0' <= c <= '9' || c == '+' || c == '/'
  }

  /** The six-bit value of an alphabet character, or None for any other character. */
  function DigitValue(c: char): (r: Option<int>)
    ensures r.Some? <==> IsDigit(c)
    ensures r.Some? ==> 0 <= r.value < 64
  {
    if 'A' <= c <= 'Z' then Some(c as int - 'A' as int)
    else if 'a' <= c <= 'z' then Some(c as int - 'a' as int + 26)
    else if '0' <= c <= '9' then Some(c as int - '0' as int + 52)
    else if c == '+' then Some(62)
    else if c == '/' then Some(63)
    else None
  }

  /** Characters that may appear in an encoding: the alphabet and the pad. */
  predicate IsEncodingChar(c: char)
  {
    IsDigit(c) || c == '='
  }

  /** Four characters for three octets. */
  function EncodeGroup(x: byte, y: byte, z: byte): (q: string)
    ensures |q| == 4 && forall i :: 0 <= i < 4 ==> IsDigit(q[i])
  {
    [Digit(x / 4), Digit((x % 4) * 16 + y / 16), Digit((y % 16) * 4 + z / 64), Digit(z % 64)]
  }

  /** Three characters and one pad for a final two octets. */
  function EncodePair(x: byte, y: byte): (q: string)
    ensures |q| == 4 && IsDigit(q[0]) && IsDigit(q[1]) && IsDigit(q[2]) && q[3] == '='
  {
    [Digit(x / 4), Digit((x % 4) * 16 + y / 16), Digit((y % 16) * 4), '=']
  }

  /** Two characters and two pads for a final octet. */
  function EncodeSingle(x: byte): (q: string)
    ensures |q| == 4 && IsDigit(q[0]) && IsDigit(q[1]) && q[2] == '=' && q[3] == '='
  {
    [Digit(x / 4), Digit((x % 4) * 16), '=', '=']
  }

  /**
   * Each group of three octets becomes four characters; a final group of one
   * or two octets is padded with "==" or "=" respectively.
   */
  function Encode(b: seq<byte>): (s: string)
    ensures |s| == 4 * ((|b| + 2) / 3)
    ensures forall i :: 0 <= i < |s| ==> IsEncodingChar(s[i])
    decreases |b|
  {
    if |b| == 0 then ""
    else if |b| == 1 then EncodeSingle(b[0])
    else if |b| == 2 then EncodePair(b[0], b[1])
    else
      var rest := Encode(b[3..]);
      assert (|b| + 2) / 3 == 1 + (|b[3..]| + 2) / 3;
      EncodeGroup(b[0], b[1], b[2]) + rest
  }

  /**
   * The one to three octets of a four-character quantum, or None when a
   * character is outside the alphabet or the padding is misplaced; padding
   * is accepted only in the `last` quantum.
   */
  function DecodeQuantum(q: string, last: bool): (r: Option<seq<byte>>)
    requires |q| == 4
    ensures r.Some? ==> 1 <= |r.value| <= 3 && (|r.value| < 3 ==> last)
  {
    var a, b, c, d := DigitValue(q[0]), DigitValue(q[1]), DigitValue(q[2]), DigitValue(q[3]);
    if a.None? || b.None? then None
    else if q[2] == '=' then
      if q[3] == '=' && last then Some([a.value * 4 + b.value / 16]) else None
    else if c.None? then None
    else if q[3] == '=' then
      if last then Some([a.value * 4 + b.value / 16, (b.value % 16) * 16 + c.value / 4]) else None
    else if d.None? then None
    else Some([a.value * 4 + b.value / 16, (b.value % 16) * 16 + c.value / 4, (c.value % 4) * 64 + d.value])
  }

  /**
   * The octets a well-formed encoding denotes, or None when the length is not
   * a multiple of four, a character is outside the alphabet, or padding
   * appears anywhere but at the end.
   */
  function Decode(s: string): Option<seq<byte>>
    decreases |s|
  {
    if |s| == 0 then Some([])
    else if |s| < 4 then None
    else
      match DecodeQuantum(s[..4], |s| == 4)
      case None => None
      case Some(group) =>
        match Decode(s[4..])
        case None => None
        case Some(rest) => Some(group + rest)
  }

  /** Decoding inverts encoding. */
  lemma {:induction false} DecodeEncode(b: seq<byte>)
    ensures Decode(Encode(b)) == Some(b)
    decreases |b|
  {
    if |b| == 1 {
      DecodeEncodeSingle(b);
    } else if |b| == 2 {
      DecodeEncodePair(b);
    } else if |b| >= 3 {
      DecodeEncode(b[3..]);
      DecodeEncodeGroup(b);
    }
  }

  lemma DecodeEncodeSingle(b: seq<byte>)
    requires |b| == 1
    ensures Decode(Encode(b)) == Some(b)
  {
    var s := Encode(b);
    QuantumSingle(b[0]);
    assert s[..4] == s && s[4..] == "";
    assert [b[0]] + [] == b;
  }

  lemma DecodeEncodePair(b: seq<byte>)
    requires |b| == 2
    ensures Decode(Encode(b)) == Some(b)
  {
    var s := Encode(b);
    QuantumPair(b[0], b[1]);
    assert s[..4] == s && s[4..] == "";
    assert [b[0], b[1]] + [] == b;
  }

  lemma DecodeEncodeGroup(b: seq<byte>)
    requires |b| >= 3
    requires Decode(Encode(b[3..])) == Some(b[3..])
    ensures Decode(Encode(b)) == Some(b)
  {
    EncodeLeadingGroup(b);
    DecodeLeadingGroup(b);
  }

  lemma DecodeLeadingGroup(b: seq<byte>)
    requires |b| >= 3
    requires Decode(Encode(b[3..])) == Some(b[3..])
    ensures Decode(EncodeGroup(b[0], b[1], b[2]) + Encode(b[3..])) == Some(b)
  {
    var g, rest := EncodeGroup(b[0], b[1], b[2]), Encode(b[3..]);
    var qb, rb := [b[0], b[1], b[2]], b[3..];
    QuantumGroup(b[0], b[1], b[2], |g + rest| == 4);
    DecodeLeadingQuantum(g, rest, qb, rb);
    assert qb + rb == b;
  }

  lemma EncodeLeadingGroup(b: seq<byte>)
    requires |b| >= 3
    ensures Encode(b) == EncodeGroup(b[0], b[1], b[2]) + Encode(b[3..])
  {
  }

  /** A decodable first quantum followed by a decodable rest decodes to the concatenation. */
  lemma DecodeLeadingQuantum(q: string, rest: string, qb: seq<byte>, rb: seq<byte>)
    requires |q| == 4 && DecodeQuantum(q, |q + rest| == 4) == Some(qb) && Decode(rest) == Some(rb)
    ensures Decode(q + rest) == Some(qb + rb)
  {
    var s := q + rest;
    assert s[..4] == q && s[4..] == rest;
  }

  lemma QuantumSingle(x: byte)
    ensures DecodeQuantum(EncodeSingle(x), true) == Some([x])
  {
    var q := EncodeSingle(x);
    assert DigitValue(q[0]) == Some(x / 4) && DigitValue(q[1]) == Some((x % 4) * 16);
  }

  lemma QuantumPair(x: byte, y: byte)
    ensures DecodeQuantum(EncodePair(x, y), true) == Some([x, y])
  {
    var q := EncodePair(x, y);
    assert DigitValue(q[0]) == Some(x / 4);
    assert DigitValue(q[1]) == Some((x % 4) * 16 + y / 16);
    assert DigitValue(q[2]) == Some((y % 16) * 4);
    TwoOctets(x, y);
  }

  lemma QuantumGroup(x: byte, y: byte, z: byte, last: bool)
    ensures DecodeQuantum(EncodeGroup(x, y, z), last) == Some([x, y, z])
  {
    var q := EncodeGroup(x, y, z);
    assert DigitValue(q[0]) == Some(x / 4);
    assert DigitValue(q[1]) == Some((x % 4) * 16 + y / 16);
    assert DigitValue(q[2]) == Some((y % 16) * 4 + z / 64);
    assert DigitValue(q[3]) == Some(z % 64);
    ThreeOctets(x, y, z);
  }

  lemma TwoOctets(x: byte, y: byte)
    ensures (x / 4) * 4 + ((x % 4) * 16 + y / 16) / 16 == x
    ensures (((x % 4) * 16 + y / 16) % 16) * 16 + ((y % 16) * 4) / 4 == y
  {
  }

  lemma ThreeOctets(x: byte, y: byte, z: byte)
    ensures (x / 4) * 4 + ((x % 4) * 16 + y / 16) / 16 == x
    ensures (((x % 4) * 16 + y / 16) % 16) * 16 + ((y % 16) * 4 + z / 64) / 4 == y
    ensures (((y % 16) * 4 + z / 64) % 4) * 64 + z % 64 == z
  {
  }
}
