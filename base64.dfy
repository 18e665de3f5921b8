/**
 * Base64 with the standard alphabet and '=' padding (section 4 of RFC 4648), as
 * `Buffer.toString("base64")` produces it.
 */
module Base64 {
  import opened Wrappers
  import opened Text

  type sextet = v: int | 0 <= v < 64

  /** The character for a 6-bit value, as Table 1 of RFC 4648 lists them: A-Z, a-z, 0-9, '+', '/'. */
  function Digit(v: sextet): char {
    if v < 26 then ('A' as int + v) as char
    else if v < 52 then ('a' as int + (v - 26)) as char
    else if v < 62 then ('0' as int + (v - 52)) as char
    else if v == 62 then '+'
    else '/'
  }

  /** The 6-bit value of an alphabet character; None for '=' and every character outside the alphabet. */
  function Value(c: char): Option<sextet> {
    if 'A' <= c <= 'Z' then Some(c as int - 'A' as int)
    else if 'a' <= c <= 'z' then Some(c as int - 'a' as int + 26)
    else if '0' <= c <= '9' then Some(c as int - '0' as int + 52)
    else if c == '+' then Some(62)
    else if c == '/' then Some(63)
    else None
  }

  lemma ValueDigit(v: sextet)
    ensures Value(Digit(v)) == Some(v)
  {
  }

  /** Three bytes become four characters; a final group of one or two bytes is padded with '='. */
  function Encode(b: seq<byte>): (s: string)
    decreases |b|
  {
    if |b| == 0 then []
    else if |b| == 1 then [Digit(b[0] / 4), Digit((b[0] % 4) * 16), '=', '=']
    else if |b| == 2 then [Digit(b[0] / 4), Digit((b[0] % 4) * 16 + b[1] / 16), Digit((b[1] % 16) * 4), '=']
    else
      [Digit(b[0] / 4), Digit((b[0] % 4) * 16 + b[1] / 16), Digit((b[1] % 16) * 4 + b[2] / 64), Digit(b[2] % 64)]
      + Encode(b[3..])
  }

  /**
   * The one to three bytes of a four-character group; only the final group (`last`) may end
   * in padding. None when a character is outside the alphabet.
   */
  function DecodeGroup(g: string, last: bool): Option<seq<byte>>
    requires |g| == 4
  {
    var v0, v1, v2, v3 := Value(g[0]), Value(g[1]), Value(g[2]), Value(g[3]);
    if v0.None? || v1.None? then None
    else
      var a, b := v0.value as int, v1.value as int;
      if last && g[2] == '=' && g[3] == '=' then Some([a * 4 + b / 16])
      else if v2.None? then None
      else
        var c := v2.value as int;
        if last && g[3] == '=' then Some([a * 4 + b / 16, (b % 16) * 16 + c / 4])
        else if v3.None? then None
        else Some([a * 4 + b / 16, (b % 16) * 16 + c / 4, (c % 4) * 64 + v3.value as int])
  }

  /** The bytes of a padded Base64 text, or None when it is malformed. */
  function Decode(s: string): Option<seq<byte>>
    decreases |s|
  {
    if |s| == 0 then Some([])
    else if |s| < 4 then None
    else match DecodeGroup(s[..4], |s| == 4)
      case None => None
      case Some(group) =>
        match Decode(s[4..])
        case None => None
        case Some(rest) => Some(group + rest)
  }

  /** A full group of three bytes decodes back to them. */
  lemma DecodeFullGroup(x: byte, y: byte, z: byte, last: bool)
    ensures
      var g := [Digit(x / 4), Digit((x % 4) * 16 + y / 16), Digit((y % 16) * 4 + z / 64), Digit(z % 64)];
      DecodeGroup(g, last) == Some([x, y, z])
  {
    ValueDigit(x / 4);
    ValueDigit((x % 4) * 16 + y / 16);
    ValueDigit((y % 16) * 4 + z / 64);
    ValueDigit(z % 64);
  }

  /** A final group of one byte, padded with "==", decodes back to it. */
  lemma DecodeOneByte(x: byte)
    ensures Decode(Encode([x])) == Some([x])
  {
    ValueDigit(x / 4);
    ValueDigit((x % 4) * 16);
    var s := Encode([x]);
    assert s[..4] == s && s[4..] == [];
    assert Decode(s[4..]) == Some([]);
    assert DecodeGroup(s[..4], |s| == 4) == Some([x]);
    assert [x] + [] == [x];
  }

  /** A final group of two bytes, padded with "=", decodes back to them. */
  lemma DecodeTwoBytes(x: byte, y: byte)
    ensures Decode(Encode([x, y])) == Some([x, y])
  {
    ValueDigit(x / 4);
    ValueDigit((x % 4) * 16 + y / 16);
    ValueDigit((y % 16) * 4);
    var s := Encode([x, y]);
    assert s[..4] == s && s[4..] == [];
    assert Decode(s[4..]) == Some([]);
    assert DecodeGroup(s[..4], |s| == 4) == Some([x, y]);
    assert [x, y] + [] == [x, y];
  }

  /** Decoding undoes encoding. */
  lemma {:induction false} DecodeEncode(b: seq<byte>)
    decreases |b|
    ensures Decode(Encode(b)) == Some(b)
  {
    if |b| == 1 {
      DecodeOneByte(b[0]);
      assert [b[0]] == b;
    } else if |b| == 2 {
      DecodeTwoBytes(b[0], b[1]);
      assert [b[0], b[1]] == b;
    } else if |b| > 2 {
      var s := Encode(b);
      assert s[4..] == Encode(b[3..]);
      DecodeFullGroup(b[0], b[1], b[2], |s| == 4);
      DecodeEncode(b[3..]);
      assert [b[0], b[1], b[2]] + b[3..] == b;
    }
  }
}
