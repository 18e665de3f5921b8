/**
 * Strings as JavaScript renders them: decimal numbers, template-literal interpolation
 * of possibly undefined values, and bytes.
 */
module Text {
  import opened Wrappers

  /** An octet; the element type of UTF-8 and Base64 byte strings. */
  type byte = b: int | 0 <= b < 256

  predicate IsDigit(c: char) {
    '0' <= c <= '9'
  }

  function DigitChar(d: nat): (c: char)
    requires d < 10
    ensures IsDigit(c) && c as int - '0' as int == d
  {
    ('0' as int + d) as char
  }

  /**
   * The decimal text of a non-negative integer, as a template literal `${n}` renders a
   * JavaScript number that holds an integer: digits only, no leading zero.
   */
  function NatToString(n: nat): (s: string)
    decreases n
    ensures |s| >= 1
    ensures forall i :: 0 <= i < |s| ==> IsDigit(s[i])
    ensures s[0] == '0' <==> n == 0
  {
    if n < 10 then [DigitChar(n)] else NatToString(n / 10) + [DigitChar(n % 10)]
  }

  /** The value of a decimal numeral, or None when `s` is empty or holds a non-digit. */
  function ParseDecimal(s: string): Option<nat>
    decreases |s|
  {
    if |s| == 0 || !IsDigit(s[|s| - 1]) then None
    else if |s| == 1 then Some(s[0] as int - '0' as int)
    else match ParseDecimal(s[..|s| - 1])
      case None => None
      case Some(high) => Some(high * 10 + (s[|s| - 1] as int - '0' as int))
  }

  /** Reading back the decimal text of a number gives the number. */
  lemma {:induction false} ParseNatToString(n: nat)
    decreases n
    ensures ParseDecimal(NatToString(n)) == Some(n)
  {
    if n >= 10 {
      var s := NatToString(n);
      assert s[..|s| - 1] == NatToString(n / 10);
      ParseNatToString(n / 10);
    }
  }

  /** Distinct numbers have distinct decimal texts. */
  lemma NatToStringInjective(m: nat, n: nat)
    requires NatToString(m) == NatToString(n)
    ensures m == n
  {
    ParseNatToString(m);
    ParseNatToString(n);
  }

  /**
   * The text a JavaScript template literal `${x}` produces for a string-valued field
   * that may be undefined.
   */
  function Interpolate(x: Option<string>): string {
    match x
    case Some(v) => v
    case None => "undefined"
  }

  /** The text `${x}` produces for a number field that may be undefined. */
  function InterpolateNat(x: Option<nat>): (s: string)
    ensures x.Some? ==> s == NatToString(x.value) && ParseDecimal(s) == x
    ensures x.None? ==> s == "undefined"
  {
    match x
    case Some(n) =>
      ParseNatToString(n);
      NatToString(n)
    case None => "undefined"
  }
}
