/**
 * Base 64 as in section 4 of RFC 4648: every three bytes (24 bits) become
 * four characters, six bits each, of the alphabet of its Table 1; a final
 * group of one or two bytes is filled with zero bits and padded with `=` to
 * four characters. `Buffer`'s `toString('base64')` produces this form. A decoder
 * is given as the encoder's inverse.
 */
module Base64 {
  import opened Wrappers
  import opened Utf8

  const Pad: char := '='

  /** The character of Table 1 for a six-bit value: `A`-`Z`, `a`-`z`, `0`-`9`, `+`, `/`. */
  function Digit(v: int): (c: char)
    requires 0 <= v < 64
    ensures c != Pad
  {
    if v < 26 then ('A' as int + v) as char
    else if v < 52 then ('a' as int + (v - 26)) as char
    else if v < 62 then ('0' as int + (v - 52)) as char
    else if v == 62 then '+'
    else '/'
  }

  /** The six-bit value of an alphabet character. */
  function Value(c: char): (r: Option<int>)
    ensures r.Some? ==> 0 <= r.value < 64
  {
    if 'A' <= c <= 'Z' then Some(c as int - 'A' as int)
    else if 'a' <= c <= 'z' then Some(c as int - 'a' as int + 26)
    else if '0' <= c <= '9' then Some(c as int - '0' as int + 52)
    else if c == '+' then Some(62)
    else if c == '/' then Some(63)
    else None
  }

  /** Every six-bit value is read back from its character. */
  lemma ValueDigit(v: int)
    requires 0 <= v < 64
    ensures Value(Digit(v)) == Some(v)
  {
  }

  /** The four characters of three bytes: their 24 bits cut into four six-bit values. */
  function Group(b0: byte, b1: byte, b2: byte): (s: string)
    ensures |s| == 4
  {
    [Digit(b0 / 4), Digit((b0 % 4) * 16 + b1 / 16), Digit((b1 % 16) * 4 + b2 / 64), Digit(b2 % 64)]
  }

  /** The encoding of `b`. */
  function Encode(b: seq<byte>): (s: string)
    ensures |b| > 0 ==> |s| >= 4
    decreases |b|
  {
    if |b| == 0 then ""
    else if |b| == 1 then Group(b[0], 0, 0)[..2] + [Pad, Pad]
    else if |b| == 2 then Group(b[0], b[1], 0)[..3] + [Pad]
    else Group(b[0], b[1], b[2]) + Encode(b[3..])
  }

  /** Four characters for every group of three bytes, the last group padded. */
  lemma {:induction false} EncodeLength(b: seq<byte>)
    ensures |Encode(b)| == 4 * ((|b| + 2) / 3)
    decreases |b|
  {
    if |b| >= 3 {
      EncodeLength(b[3..]);
      assert Encode(b) == Group(b[0], b[1], b[2]) + Encode(b[3..]);
      assert (|b| + 2) / 3 == (|b| - 1) / 3 + 1;
    } else if |b| == 1 {
      assert Encode(b) == Group(b[0], 0, 0)[..2] + [Pad, Pad];
    } else if |b| == 2 {
      assert Encode(b) == Group(b[0], b[1], 0)[..3] + [Pad];
    }
  }

  /** The three bytes four six-bit values stand for. */
  function Bytes(v0: int, v1: int, v2: int, v3: int): (r: seq<byte>)
    requires 0 <= v0 < 64 && 0 <= v1 < 64 && 0 <= v2 < 64 && 0 <= v3 < 64
    ensures |r| == 3
  {
    [v0 * 4 + v1 / 16, (v1 % 16) * 16 + v2 / 4, (v2 % 4) * 64 + v3]
  }

  /**
   * The bytes of one group of four characters: three, or, in the last
   * group, one before `==` or two before `=`.
   */
  function DecodeQuad(c0: char, c1: char, c2: char, c3: char, last: bool): (r: Option<seq<byte>>)
    ensures r.Some? ==> 1 <= |r.value| <= 3
  {
    if Value(c0).None? || Value(c1).None? then None
    else if last && c2 == Pad && c3 == Pad then Some(Bytes(Value(c0).value, Value(c1).value, 0, 0)[..1])
    else if Value(c2).None? then None
    else if last && c3 == Pad then Some(Bytes(Value(c0).value, Value(c1).value, Value(c2).value, 0)[..2])
    else if Value(c3).None? then None
    else Some(Bytes(Value(c0).value, Value(c1).value, Value(c2).value, Value(c3).value))
  }

  /** The bytes a padded encoding stands for, if it is one. */
  function Decode(s: string): Option<seq<byte>>
    decreases |s|
  {
    if |s| == 0 then Some([])
    else if |s| < 4 then None
    else
      match (DecodeQuad(s[0], s[1], s[2], s[3], |s| == 4), Decode(s[4..]))
      case (Some(g), Some(rest)) => Some(g + rest)
      case _ => None
  }

  /** Reading the characters of a group back gives its bytes. */
  lemma GroupValues(b0: byte, b1: byte, b2: byte, last: bool)
    ensures var g := Group(b0, b1, b2);
      && Value(g[0]).Some? && Value(g[1]).Some? && Value(g[2]).Some?
      && DecodeQuad(g[0], g[1], g[2], g[3], last) == Some([b0, b1, b2])
      && Bytes(Value(g[0]).value, Value(g[1]).value, 0, 0)[..1] == [b0]
      && Bytes(Value(g[0]).value, Value(g[1]).value, Value(g[2]).value, 0)[..2] == [b0, b1]
  {
    var v0, v1, v2, v3 := b0 / 4, (b0 % 4) * 16 + b1 / 16, (b1 % 16) * 4 + b2 / 64, b2 % 64;
    ValueDigit(v0);
    ValueDigit(v1);
    ValueDigit(v2);
    ValueDigit(v3);
    assert v1 / 16 == b0 % 4 && v1 % 16 == b1 / 16;
    assert v2 / 4 == b1 % 16 && v2 % 4 == b2 / 64;
  }

  /** A final group of one byte decodes to that byte. */
  lemma DecodeOne(b: seq<byte>)
    requires |b| == 1
    ensures Decode(Encode(b)) == Some(b)
  {
    var g := Group(b[0], 0, 0);
    var s := Encode(b);
    assert s == g[..2] + [Pad, Pad];
    assert s[0] == g[0] && s[1] == g[1] && s[2] == Pad && s[3] == Pad && |s| == 4;
    GroupValues(b[0], 0, 0, true);
    assert DecodeQuad(s[0], s[1], s[2], s[3], true) == Some([b[0]]);
    assert s[4..] == [] && Decode(s[4..]) == Some([]);
    assert Decode(s) == Some([b[0]] + []);
    assert [b[0]] + [] == b;
  }

  /** A final group of two bytes decodes to those bytes. */
  lemma DecodeTwo(b: seq<byte>)
    requires |b| == 2
    ensures Decode(Encode(b)) == Some(b)
  {
    var g := Group(b[0], b[1], 0);
    var s := Encode(b);
    assert s == g[..3] + [Pad];
    assert s[0] == g[0] && s[1] == g[1] && s[2] == g[2] && s[3] == Pad && |s| == 4;
    GroupValues(b[0], b[1], 0, true);
    assert DecodeQuad(s[0], s[1], s[2], s[3], true) == Some([b[0], b[1]]);
    assert s[4..] == [] && Decode(s[4..]) == Some([]);
    assert Decode(s) == Some([b[0], b[1]] + []);
    assert [b[0], b[1]] + [] == b;
  }

  /** A full group followed by a decodable rest decodes to its three bytes, then the rest. */
  lemma DecodeGroup(b0: byte, b1: byte, b2: byte, rest: string)
    requires Decode(rest).Some?
    ensures Decode(Group(b0, b1, b2) + rest) == Some([b0, b1, b2] + Decode(rest).value)
  {
    var g := Group(b0, b1, b2);
    var s := g + rest;
    assert s[0] == g[0] && s[1] == g[1] && s[2] == g[2] && s[3] == g[3] && s[4..] == rest;
    GroupValues(b0, b1, b2, |s| == 4);
  }

  /** Decoding an encoding gives the bytes back. */
  lemma {:induction false} DecodeEncode(b: seq<byte>)
    ensures Decode(Encode(b)) == Some(b)
    decreases |b|
  {
    if |b| == 1 {
      DecodeOne(b);
    } else if |b| == 2 {
      DecodeTwo(b);
    } else if |b| >= 3 {
      var rest := Encode(b[3..]);
      DecodeEncode(b[3..]);
      DecodeGroup(b[0], b[1], b[2], rest);
      assert Encode(b) == Group(b[0], b[1], b[2]) + rest;
      assert [b[0], b[1], b[2]] + b[3..] == b;
    }
  }
}
