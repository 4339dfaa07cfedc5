/**
 * Integral Numbers as the storefront turns them into text (`String(n)`, template
 * literals, `anio.toString()`) and back (`parseInt(s)` without a radix).
 * Numbers are unbounded integers here; the loss of precision above 2^53 and the
 * exponent form used from 10^21 on are outside the model.
 */
module JsNumber {
  import opened Js
  import JsString

  predicate IsDecimalDigit(c: char)
  {
    '0' <= c <= '9'
  }

  /** A digit of the given radix (10, or 16 after a "0x" prefix), in either case for hexadecimal. */
  predicate IsRadixDigit(c: char, radix: nat)
  {
    IsDecimalDigit(c) || (radix == 16 && ('a' <= c <= 'f' || 'A' <= c <= 'F'))
  }

  function DigitValue(c: char, radix: nat): nat
    requires IsRadixDigit(c, radix)
  {
    if IsDecimalDigit(c) then c as int - '0' as int
    else if 'a' <= c <= 'f' then c as int - 'a' as int + 10
    else c as int - 'A' as int + 10
  }

  function DigitChar(d: nat): (c: char)
    requires d < 10
    ensures IsDecimalDigit(c) && DigitValue(c, 10) == d
  {
    ('0' as int + d) as char
  }

  /** The decimal digits of `n`, most significant first, without leading zeros. */
  function NatToDecimal(n: nat): (r: string)
    ensures |r| >= 1
    ensures forall i :: 0 <= i < |r| ==> IsDecimalDigit(r[i])
    ensures r[0] == '0' ==> r == "0"
  {
    if n < 10 then [DigitChar(n)] else NatToDecimal(n / 10) + [DigitChar(n % 10)]
  }

  /** `String(n)` for an integral Number: an optional minus sign, then the decimal digits. */
  function NumberToString(n: int): string
  {
    if n < 0 then "-" + NatToDecimal(-n) else NatToDecimal(n)
  }

  /** How many characters at the start of `s` are digits of `radix`. */
  function LeadingDigits(s: string, radix: nat): (k: nat)
    ensures k <= |s|
    ensures forall i :: 0 <= i < k ==> IsRadixDigit(s[i], radix)
    ensures k < |s| ==> !IsRadixDigit(s[k], radix)
  {
    if s != "" && IsRadixDigit(s[0], radix) then 1 + LeadingDigits(s[1..], radix) else 0
  }

  /** The value of a string of digits in `radix`, most significant first. */
  function DigitsValue(s: string, radix: nat): nat
    requires forall i :: 0 <= i < |s| ==> IsRadixDigit(s[i], radix)
  {
    if s == "" then 0
    else DigitsValue(s[..|s| - 1], radix) * radix + DigitValue(s[|s| - 1], radix)
  }

  /**
   * The unsigned part of `parseInt`: a "0x"/"0X" prefix switches to hexadecimal,
   * and the longest run of digits that follows is the value. No digits at all gives NaN, here `None`.
   */
  function ParseUnsigned(u: string): Option<nat>
  {
    var hex := |u| >= 2 && u[0] == '0' && (u[1] == 'x' || u[1] == 'X');
    var radix := if hex then 16 else 10;
    var v := if hex then u[2..] else u;
    var k := LeadingDigits(v, radix);
    if k == 0 then None else Some(DigitsValue(v[..k], radix))
  }

  /** After leading white space: one optional sign, then the unsigned part. */
  function ParseSigned(t: string): Option<int>
  {
    var u := if t != "" && (t[0] == '+' || t[0] == '-') then t[1..] else t;
    match ParseUnsigned(u)
    case None => None
    case Some(v) =>
      var n: int := if t != "" && t[0] == '-' then -(v as int) else v;
      Some(n)
  }

  /** `parseInt(s)` with no radix: leading white space is skipped, then a signed number is read. */
  function ParseInt(s: string): Option<int>
  {
    ParseSigned(JsString.TrimStart(s))
  }

  lemma {:induction false} NatToDecimalValue(n: nat)
    ensures DigitsValue(NatToDecimal(n), 10) == n
  {
    var r := NatToDecimal(n);
    if n >= 10 {
      NatToDecimalValue(n / 10);
      assert r[..|r| - 1] == NatToDecimal(n / 10);
    }
  }

  lemma {:induction false} AllDigitsLeading(s: string)
    requires forall i :: 0 <= i < |s| ==> IsDecimalDigit(s[i])
    ensures LeadingDigits(s, 10) == |s|
  {
    if s != "" {
      AllDigitsLeading(s[1..]);
    }
  }

  /** A non-empty string of decimal digits reads back as its decimal value. */
  lemma ParseUnsignedDigits(d: string)
    requires d != [] && forall i :: 0 <= i < |d| ==> IsDecimalDigit(d[i])
    ensures ParseUnsigned(d) == Some(DigitsValue(d, 10))
  {
    if |d| >= 2 {
      assert IsDecimalDigit(d[1]);
    }
    AllDigitsLeading(d);
    assert d[..|d|] == d;
  }

  /** Leading white space is skipped only when there is some. */
  lemma TrimStartKeeps(s: string)
    requires s != [] && !JsString.IsWhiteSpace(s[0])
    ensures JsString.TrimStart(s) == s
  {
    assert JsString.LeadingWhiteSpace(s) == 0;
  }

  /** A string that starts with a digit reads as its unsigned part. */
  lemma ParsePlain(d: string, v: nat)
    requires d != [] && IsDecimalDigit(d[0]) && ParseUnsigned(d) == Some(v)
    ensures ParseInt(d) == Some(v as int)
  {
    TrimStartKeeps(d);
  }

  /** A leading minus sign negates what the rest of the string reads as. */
  lemma ParseMinus(d: string, v: nat)
    requires ParseUnsigned(d) == Some(v)
    ensures ParseInt("-" + d) == Some(-(v as int))
  {
    var s := "-" + d;
    assert s[0] == '-' && s[1..] == d;
    TrimStartKeeps(s);
    assert ParseSigned(s) == Some(-(v as int));
  }

  /** Reading back what `String(n)` wrote gives `n`: the route id of a movie link parses to that movie's id. */
  lemma ParseIntNumberToString(n: int)
    ensures ParseInt(NumberToString(n)) == Some(n)
  {
    var m := if n < 0 then -n else n;
    var d := NatToDecimal(m);
    NatToDecimalValue(m);
    ParseUnsignedDigits(d);
    if n < 0 {
      ParseMinus(d, m);
    } else {
      ParsePlain(d, m);
    }
  }

  /** Distinct numbers are written differently. */
  lemma NumberToStringInjective(a: int, b: int)
    ensures NumberToString(a) == NumberToString(b) ==> a == b
  {
    ParseIntNumberToString(a);
    ParseIntNumberToString(b);
  }
}
