/**
 * UTF-8, as in section 3 of RFC 3629: the bytes `Buffer` stores for a
 * string. A character is one to four bytes; a decoder is given as the
 * encoder's inverse.
 */
module Utf8 {
  import opened Wrappers

  type byte = x: int | 0 <= x < 256

  /** The bytes of one character. */
  function EncodeChar(c: char): (r: seq<byte>)
    ensures 1 <= |r| <= 4
    ensures (c as int < 0x80) <==> |r| == 1
    ensures c as int < 0x80 ==> r == [c as int]
    ensures forall i | 1 <= i < |r| :: 0x80 <= r[i] < 0xC0
  {
    var n := c as int;
    if n < 0x80 then [n]
    else if n < 0x800 then [0xC0 + n / 64, 0x80 + n % 64]
    else if n < 0x10000 then [0xE0 + n / 4096, 0x80 + (n / 64) % 64, 0x80 + n % 64]
    else [0xF0 + n / 262144, 0x80 + (n / 4096) % 64, 0x80 + (n / 64) % 64, 0x80 + n % 64]
  }

  /** The bytes of a string. */
  function Encode(s: string): (r: seq<byte>)
    ensures |s| <= |r| <= 4 * |s|
    decreases |s|
  {
    if s == [] then [] else EncodeChar(s[0]) + Encode(s[1..])
  }

  /** A Unicode scalar value, as a `char`. */
  function ToChar(n: int): Option<char> {
    if 0 <= n < 0xD800 || 0xE000 <= n < 0x11_0000 then Some(n as char) else None
  }

  /** The continuation bits of `b`, when it is a continuation byte. */
  function Tail(b: byte): Option<int> {
    if 0x80 <= b < 0xC0 then Some(b - 0x80) else None
  }

  /** The first character of `b` and the number of bytes it takes. */
  function DecodeFirst(b: seq<byte>): Option<(char, nat)>
    requires b != []
  {
    var b0 := b[0];
    if b0 < 0x80 then Some((b0 as char, 1))
    else if 0xC0 <= b0 < 0xE0 && |b| >= 2 && Tail(b[1]).Some? then
      match ToChar((b0 - 0xC0) * 64 + Tail(b[1]).value)
      case None => None
      case Some(c) => Some((c, 2))
    else if 0xE0 <= b0 < 0xF0 && |b| >= 3 && Tail(b[1]).Some? && Tail(b[2]).Some? then
      match ToChar((b0 - 0xE0) * 4096 + Tail(b[1]).value * 64 + Tail(b[2]).value)
      case None => None
      case Some(c) => Some((c, 3))
    else if 0xF0 <= b0 < 0xF8 && |b| >= 4 && Tail(b[1]).Some? && Tail(b[2]).Some? && Tail(b[3]).Some? then
      match ToChar((b0 - 0xF0) * 262144 + Tail(b[1]).value * 4096 + Tail(b[2]).value * 64 + Tail(b[3]).value)
      case None => None
      case Some(c) => Some((c, 4))
    else None
  }

  /** The string a byte sequence encodes, if any. */
  function Decode(b: seq<byte>): Option<string>
    decreases |b|
  {
    if b == [] then Some([])
    else
      match DecodeFirst(b)
      case None => None
      case Some((c, n)) =>
        if n > |b| then None
        else
          match Decode(b[n..])
          case None => None
          case Some(rest) => Some([c] + rest)
  }

  /** A character's bytes, followed by anything, decode to that character first. */
  lemma DecodeEncodeChar(c: char, rest: seq<byte>)
    ensures DecodeFirst(EncodeChar(c) + rest) == Some((c, |EncodeChar(c)|))
  {
    var n := c as int;
    if n < 0x80 {
    } else if n < 0x800 {
      DecodeTwo(c, rest);
    } else if n < 0x10000 {
      DecodeThree(c, rest);
    } else {
      DecodeFour(c, rest);
    }
  }

  lemma DecodeTwo(c: char, rest: seq<byte>)
    requires 0x80 <= c as int < 0x800
    ensures DecodeFirst(EncodeChar(c) + rest) == Some((c, 2))
  {
    var n := c as int;
    assert ToChar(n) == Some(c);
    var b := EncodeChar(c) + rest;
    TwoBytes(n);
    assert b[0] == 0xC0 + n / 64 && b[1] == 0x80 + n % 64;
  }

  lemma DecodeThree(c: char, rest: seq<byte>)
    requires 0x800 <= c as int < 0x10000
    ensures DecodeFirst(EncodeChar(c) + rest) == Some((c, 3))
  {
    var n := c as int;
    assert ToChar(n) == Some(c);
    var b := EncodeChar(c) + rest;
    ThreeBytes(n);
    assert b[0] == 0xE0 + n / 4096 && b[1] == 0x80 + (n / 64) % 64 && b[2] == 0x80 + n % 64;
  }

  lemma DecodeFour(c: char, rest: seq<byte>)
    requires 0x10000 <= c as int
    ensures DecodeFirst(EncodeChar(c) + rest) == Some((c, 4))
  {
    var n := c as int;
    assert ToChar(n) == Some(c);
    var b := EncodeChar(c) + rest;
    FourBytes(n);
    assert b[0] == 0xF0 + n / 262144 && b[1] == 0x80 + (n / 4096) % 64;
    assert b[2] == 0x80 + (n / 64) % 64 && b[3] == 0x80 + n % 64;
  }

  lemma TwoBytes(n: int)
    requires 0x80 <= n < 0x800
    ensures 0xC0 <= 0xC0 + n / 64 < 0xE0
    ensures (n / 64) * 64 + n % 64 == n
  {
  }

  lemma ThreeBytes(n: int)
    requires 0x800 <= n < 0x10000
    ensures 0xE0 <= 0xE0 + n / 4096 < 0xF0
    ensures (n / 4096) * 4096 + ((n / 64) % 64) * 64 + n % 64 == n
  {
    assert n / 64 == (n / 4096) * 64 + (n / 64) % 64;
  }

  lemma FourBytes(n: int)
    requires 0x10000 <= n < 0x11_0000
    ensures 0xF0 <= 0xF0 + n / 262144 < 0xF8
    ensures (n / 262144) * 262144 + ((n / 4096) % 64) * 4096 + ((n / 64) % 64) * 64 + n % 64 == n
  {
    assert n / 64 == (n / 4096) * 64 + (n / 64) % 64;
    assert n / 4096 == (n / 262144) * 64 + (n / 4096) % 64;
  }

  /** Decoding the bytes of a string gives the string back. */
  lemma {:induction false} DecodeEncode(s: string)
    ensures Decode(Encode(s)) == Some(s)
    decreases |s|
  {
    if s != [] {
      var e := EncodeChar(s[0]);
      var rest := Encode(s[1..]);
      DecodeEncodeChar(s[0], rest);
      assert (e + rest)[|e|..] == rest;
      DecodeEncode(s[1..]);
      assert [s[0]] + s[1..] == s;
    }
  }

  /** The bytes of a concatenation are the concatenated bytes. */
  lemma {:induction false} EncodeConcat(a: string, b: string)
    ensures Encode(a + b) == Encode(a) + Encode(b)
    decreases |a|
  {
    if a != [] {
      assert (a + b)[1..] == a[1..] + b;
      EncodeConcat(a[1..], b);
      assert (a + b)[0] == a[0];
    } else {
      assert a + b == b;
    }
  }
}
