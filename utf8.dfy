/**
 * UTF-8 (section 3 of RFC 3629): the byte form `Buffer.from(text, "utf-8")` gives a string
 * before it is Base64-encoded into the Authorization header. A Dafny `char` is a Unicode
 * scalar value, so every character has an encoding.
 */
module Utf8 {
  import opened Wrappers
  import opened Text

  /** The one to four bytes that encode one character. */
  function EncodeChar(c: char): (bytes: seq<byte>)
    ensures 1 <= |bytes| <= 4
  {
    var n := c as int;
    if n < 0x80 then [n]
    else if n < 0x800 then [0xC0 + n / 64, 0x80 + n % 64]
    else if n < 0x1_0000 then [0xE0 + n / 4096, 0x80 + (n / 64) % 64, 0x80 + n % 64]
    else [0xF0 + n / 262144, 0x80 + (n / 4096) % 64, 0x80 + (n / 64) % 64, 0x80 + n % 64]
  }

  function Encode(s: string): seq<byte>
    decreases |s|
  {
    if s == [] then [] else EncodeChar(s[0]) + Encode(s[1..])
  }

  predicate IsContinuation(b: byte) {
    0x80 <= b < 0xC0
  }

  /** A scalar value as a character, or None for a surrogate or a value past U+10FFFF. */
  function ScalarChar(n: int): Option<char> {
    if 0 <= n < 0xD800 || 0xE000 <= n < 0x11_0000 then Some(n as char) else None
  }

  /** The character at the head of `b` and the number of bytes it occupies, or None when `b` does not start with a well-formed encoding. */
  function DecodeChar(b: seq<byte>): Option<(char, nat)>
  {
    if |b| == 0 then None
    else if b[0] < 0x80 then Some((b[0] as char, 1))
    else if b[0] < 0xC0 then None
    else if b[0] < 0xE0 then
      if |b| < 2 || !IsContinuation(b[1]) then None
      else
        var n := (b[0] as int - 0xC0) * 64 + (b[1] as int - 0x80);
        if n < 0x80 then None else Some(((n as char), 2))
    else if b[0] < 0xF0 then
      if |b| < 3 || !IsContinuation(b[1]) || !IsContinuation(b[2]) then None
      else
        var n := (b[0] as int - 0xE0) * 4096 + (b[1] as int - 0x80) * 64 + (b[2] as int - 0x80);
        if n < 0x800 then None
        else match ScalarChar(n)
          case None => None
          case Some(c) => Some((c, 3))
    else if b[0] < 0xF8 then
      if |b| < 4 || !IsContinuation(b[1]) || !IsContinuation(b[2]) || !IsContinuation(b[3]) then None
      else
        var n := (b[0] as int - 0xF0) * 262144 + (b[1] as int - 0x80) * 4096 + (b[2] as int - 0x80) * 64 + (b[3] as int - 0x80);
        if n < 0x1_0000 then None
        else match ScalarChar(n)
          case None => None
          case Some(c) => Some((c, 4))
    else None
  }

  function Decode(b: seq<byte>): Option<string>
    decreases |b|
  {
    if b == [] then Some([])
    else match DecodeChar(b)
      case None => None
      case Some((c, k)) =>
        if k == 0 || k > |b| then None
        else match Decode(b[k..])
          case None => None
          case Some(rest) => Some([c] + rest)
  }

  /** The encoding of a character decodes back to it, whatever bytes follow. */
  lemma DecodeEncodeChar(c: char, rest: seq<byte>)
    ensures DecodeChar(EncodeChar(c) + rest) == Some((c, |EncodeChar(c)|))
  {
    var n := c as int;
    var b := EncodeChar(c) + rest;
    if n < 0x80 {
    } else if n < 0x800 {
      assert (n / 64) * 64 + n % 64 == n;
    } else if n < 0x1_0000 {
      assert (n / 4096) * 4096 + ((n / 64) % 64) * 64 + n % 64 == n by {
        assert n / 64 == (n / 4096) * 64 + (n / 64) % 64;
      }
    } else {
      assert (n / 262144) * 262144 + ((n / 4096) % 64) * 4096 + ((n / 64) % 64) * 64 + n % 64 == n by {
        assert n / 64 == (n / 4096) * 64 + (n / 64) % 64;
        assert n / 4096 == (n / 262144) * 64 + (n / 4096) % 64;
      }
    }
  }

  /** Decoding undoes encoding: `Buffer.from(text, "utf-8")` loses nothing. */
  lemma {:induction false} DecodeEncode(s: string)
    decreases |s|
    ensures Decode(Encode(s)) == Some(s)
  {
    if s != [] {
      var head := EncodeChar(s[0]);
      var b := Encode(s);
      assert b == head + Encode(s[1..]);
      DecodeEncodeChar(s[0], Encode(s[1..]));
      assert b[|head|..] == Encode(s[1..]);
      DecodeEncode(s[1..]);
      assert [s[0]] + s[1..] == s;
    }
  }
}
