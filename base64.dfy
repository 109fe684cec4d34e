/** Base 64 encoding as defined in section 4 of RFC 4648: the 64-character
    alphabet of its Table 1, groups of three octets written as four
    characters, and '=' padding for a final group of one or two octets. */
module Base64 {
  import opened Runtime

  const Pad: char := '='

  /** The characters of the alphabet (Table 1 of RFC 4648). */
  predicate IsAlphabet(c: char)
  {
    'A' <= c <= 'Z' || 'a' <= c <= 'z' || '0' <= c <= '9' || c == '+' || c == '/'
  }

  /** The 6-bit value a character of the alphabet stands for. */
  function ValueOf(c: char): (v: int)
    requires IsAlphabet(c)
    ensures 0 <= v < 64
  {
    if 'A' <= c <= 'Z' then c as int - 'A' as int
    else if 'a' <= c <= 'z' then c as int - 'a' as int + 26
    else if '0' <= c <= '9' then c as int - '0' as int + 52
    else if c == '+' then 62
    else 63
  }

  /** The character that encodes a 6-bit value; `ValueOf` undoes it. */
  function CharOf(v: int): (c: char)
    requires 0 <= v < 64
    ensures IsAlphabet(c) && ValueOf(c) == v
  {
    if v < 26 then ('A' as int + v) as char
    else if v < 52 then ('a' as int + (v - 26)) as char
    else if v < 62 then ('0' as int + (v - 52)) as char
    else if v == 62 then '+'
    else '/'
  }

  /** Three octets (24 bits) as four 6-bit characters, high bits first. */
  function EncodeGroup(b0: byte, b1: byte, b2: byte): string
  {
    [ CharOf(b0 as int / 4),
      CharOf(b0 as int % 4 * 16 + b1 as int / 16),
      CharOf(b1 as int % 16 * 4 + b2 as int / 64),
      CharOf(b2 as int % 64) ]
  }

  /** A final group of one octet: two characters and "==". */
  function EncodeOne(b0: byte): string
  {
    [CharOf(b0 as int / 4), CharOf(b0 as int % 4 * 16), Pad, Pad]
  }

  /** A final group of two octets: three characters and "=". */
  function EncodeTwo(b0: byte, b1: byte): string
  {
    [CharOf(b0 as int / 4), CharOf(b0 as int % 4 * 16 + b1 as int / 16), CharOf(b1 as int % 16 * 4), Pad]
  }

  /** `base64.b64encode`. The output is four characters per started group of
      three octets, each from the alphabet or the pad character. */
  function Encode(data: seq<byte>): (s: string)
    ensures |s| == 4 * ((|data| + 2) / 3)
    ensures forall i :: 0 <= i < |s| ==> IsAlphabet(s[i]) || s[i] == Pad
    decreases |data|
  {
    if |data| == 0 then ""
    else if |data| == 1 then EncodeOne(data[0])
    else if |data| == 2 then EncodeTwo(data[0], data[1])
    else EncodeGroup(data[0], data[1], data[2]) + Encode(data[3..])
  }

  /** Decodes one group of four characters; padding is accepted only in the
      last group. Bits below the last octet of a padded group are ignored,
      as Python's decoder does. */
  function DecodeGroup(q: string, last: bool): (r: Option<seq<byte>>)
    requires |q| == 4
    ensures r.Some? ==> IsAlphabet(q[0]) && IsAlphabet(q[1]) && 1 <= |r.value| <= 3
    ensures r.Some? && !last ==> |r.value| == 3 && IsAlphabet(q[2]) && IsAlphabet(q[3])
  {
    if !IsAlphabet(q[0]) || !IsAlphabet(q[1]) then None
    else
      var v0, v1 := ValueOf(q[0]), ValueOf(q[1]);
      var b0 := (v0 * 4 + v1 / 16) as byte;
      if last && q[2] == Pad && q[3] == Pad then Some([b0])
      else if !IsAlphabet(q[2]) then None
      else
        var v2 := ValueOf(q[2]);
        var b1 := (v1 % 16 * 16 + v2 / 4) as byte;
        if last && q[3] == Pad then Some([b0, b1])
        else if !IsAlphabet(q[3]) then None
        else Some([b0, b1, (v2 % 4 * 64 + ValueOf(q[3])) as byte])
  }

  /** `base64.b64decode` in strict form: None for a length that is not a
      multiple of four, a character outside the alphabet, or misplaced
      padding. */
  function Decode(s: string): (r: Option<seq<byte>>)
    ensures r.Some? ==> |s| % 4 == 0
    ensures r.Some? ==> 3 * (|s| / 4) - 2 <= |r.value| <= 3 * (|s| / 4)
    decreases |s|
  {
    if |s| == 0 then Some([])
    else if |s| < 4 then None
    else
      match DecodeGroup(s[..4], |s| == 4)
      case None => None
      case Some(head) =>
        match Decode(s[4..])
        case None => None
        case Some(rest) => Some(head + rest)
  }

  /** The 6-bit fields of three octets put back together give the octets. */
  lemma GroupArithmetic(x0: int, x1: int, x2: int)
    requires 0 <= x0 < 256 && 0 <= x1 < 256 && 0 <= x2 < 256
    ensures x0 / 4 * 4 + (x0 % 4 * 16 + x1 / 16) / 16 == x0
    ensures (x0 % 4 * 16 + x1 / 16) % 16 * 16 + (x1 % 16 * 4 + x2 / 64) / 4 == x1
    ensures (x1 % 16 * 4 + x2 / 64) % 4 * 64 + x2 % 64 == x2
  {
    var v1 := x0 % 4 * 16 + x1 / 16;
    var v2 := x1 % 16 * 4 + x2 / 64;
    assert v1 / 16 == x0 % 4 && v1 % 16 == x1 / 16;
    assert v2 / 4 == x1 % 16 && v2 % 4 == x2 / 64;
  }

  lemma GroupRoundTrip(b0: byte, b1: byte, b2: byte, last: bool)
    ensures DecodeGroup(EncodeGroup(b0, b1, b2), last) == Some([b0, b1, b2])
  {
    var x0, x1, x2 := b0 as int, b1 as int, b2 as int;
    GroupArithmetic(x0, x1, x2);
    var q := EncodeGroup(b0, b1, b2);
    assert ValueOf(q[0]) == x0 / 4;
    assert ValueOf(q[1]) == x0 % 4 * 16 + x1 / 16;
    assert ValueOf(q[2]) == x1 % 16 * 4 + x2 / 64;
    assert ValueOf(q[3]) == x2 % 64;
  }

  lemma OneRoundTrip(b0: byte)
    ensures DecodeGroup(EncodeOne(b0), true) == Some([b0])
  {
    var v1 := b0 as int % 4 * 16;
    assert v1 / 16 == b0 as int % 4;
  }

  lemma TwoRoundTrip(b0: byte, b1: byte)
    ensures DecodeGroup(EncodeTwo(b0, b1), true) == Some([b0, b1])
  {
    var x0, x1 := b0 as int, b1 as int;
    var v1 := x0 % 4 * 16 + x1 / 16;
    var v2 := x1 % 16 * 4;
    assert v1 / 16 == x0 % 4 && v1 % 16 == x1 / 16;
    assert v2 / 4 == x1 % 16;
  }

  /** A string of exactly one group decodes as that group, padding allowed. */
  lemma DecodeFinalGroup(q: string)
    requires |q| == 4 && DecodeGroup(q, true).Some?
    ensures Decode(q) == DecodeGroup(q, true)
  {
    assert q[..4] == q;
    assert q[4..] == [];
    assert DecodeGroup(q, true).value + [] == DecodeGroup(q, true).value;
  }

  /** A decodable group followed by a decodable rest decodes to the
      group's octets followed by the rest's. */
  lemma DecodeGroupThenRest(group: string, rest: string, head: seq<byte>, tail: seq<byte>)
    requires |group| == 4 && DecodeGroup(group, |rest| == 0) == Some(head) && Decode(rest) == Some(tail)
    ensures Decode(group + rest) == Some(head + tail)
  {
    var s := group + rest;
    assert s[..4] == group;
    assert s[4..] == rest;
  }

  /** One octet encodes to a "=="-padded group that decodes back. */
  lemma OnePaddedRoundTrip(data: seq<byte>)
    requires |data| == 1
    ensures Decode(Encode(data)) == Some(data)
  {
    var q := EncodeOne(data[0]);
    assert Encode(data) == q;
    OneRoundTrip(data[0]);
    DecodeFinalGroup(q);
    assert data == [data[0]];
  }

  /** Two octets encode to a "="-padded group that decodes back. */
  lemma TwoPaddedRoundTrip(data: seq<byte>)
    requires |data| == 2
    ensures Decode(Encode(data)) == Some(data)
  {
    var q := EncodeTwo(data[0], data[1]);
    assert Encode(data) == q;
    TwoRoundTrip(data[0], data[1]);
    DecodeFinalGroup(q);
    assert data == [data[0], data[1]];
  }

  /** Three or more octets encode as their first group followed by the
      encoding of the rest. */
  lemma EncodeFirstGroup(data: seq<byte>)
    requires |data| >= 3
    ensures Encode(data) == EncodeGroup(data[0], data[1], data[2]) + Encode(data[3..])
  {
  }

  /** The inductive step: a full first group in front of a rest that
      round-trips. */
  lemma GroupThenRestRoundTrip(data: seq<byte>, encodedRest: string)
    requires |data| >= 3 && encodedRest == Encode(data[3..])
    requires Decode(encodedRest) == Some(data[3..])
    ensures Decode(Encode(data)) == Some(data)
  {
    var group := EncodeGroup(data[0], data[1], data[2]);
    EncodeFirstGroup(data);
    GroupRoundTrip(data[0], data[1], data[2], |encodedRest| == 0);
    DecodeGroupThenRest(group, encodedRest, [data[0], data[1], data[2]], data[3..]);
    assert [data[0], data[1], data[2]] + data[3..] == data;
  }

  /** Decoding what was encoded gives back the octets. */
  lemma {:induction false} DecodeEncode(data: seq<byte>)
    ensures Decode(Encode(data)) == Some(data)
    decreases |data|
  {
    if |data| == 1 {
      OnePaddedRoundTrip(data);
    } else if |data| == 2 {
      TwoPaddedRoundTrip(data);
    } else if |data| >= 3 {
      DecodeEncode(data[3..]);
      GroupThenRestRoundTrip(data, Encode(data[3..]));
    }
  }

  /** No encoded string contains a colon, so it can sit between colons. */
  lemma NoColon(data: seq<byte>)
    ensures ':' !in Encode(data)
  {
  }
}
