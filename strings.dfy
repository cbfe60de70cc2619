/**
  The text conversions the services rely on: Java's Long.toString and
  Long.valueOf, the zero-padded fields of a DateTimeFormatter pattern, and
  hutool's notion of a blank string.
*/
module Strings {
  import opened Wrappers

  const LONG_MIN: int := -0x8000_0000_0000_0000
  const LONG_MAX: int := 0x7FFF_FFFF_FFFF_FFFF

  predicate IsDigit(c: char) { '0' <= c <= '9' }

  predicate AllDigits(s: string) { forall i :: 0 <= i < |s| ==> IsDigit(s[i]) }

  function DigitValue(c: char): nat
    requires IsDigit(c)
  {
    c as int - '0' as int
  }

  function DigitChar(d: nat): (c: char)
    requires d < 10
    ensures IsDigit(c) && DigitValue(c) == d
  {
    ('0' as int + d) as char
  }

  /** Long.toString of a non-negative number: digits only, no leading zero. */
  function Decimal(n: nat): (s: string)
    ensures 1 <= |s| && AllDigits(s)
    ensures s[0] == '0' ==> n == 0
  {
    if n < 10 then [DigitChar(n)] else Decimal(n / 10) + [DigitChar(n % 10)]
  }

  /** The number a string of decimal digits denotes. */
  function DigitsValue(s: string): nat
    requires AllDigits(s)
  {
    if s == [] then 0 else DigitsValue(s[..|s| - 1]) * 10 + DigitValue(s[|s| - 1])
  }

  /** Reading back the text Decimal prints gives the number printed. */
  lemma {:induction false} DigitsValueOfDecimal(n: nat)
    ensures DigitsValue(Decimal(n)) == n
  {
    if n >= 10 {
      var s := Decimal(n);
      assert s[..|s| - 1] == Decimal(n / 10);
      DigitsValueOfDecimal(n / 10);
    }
  }

  /** Long.toString: a minus sign for negative numbers, then the digits. */
  function LongText(n: int): (s: string)
    ensures 1 <= |s|
    ensures s[0] == '-' <==> n < 0
    ensures AllDigits(s[1..])
    ensures n >= 0 ==> AllDigits(s)
  {
    if n < 0 then "-" + Decimal(-n) else Decimal(n)
  }

  /** Long.valueOf: an optional sign, then at least one digit, within the 64-bit range. */
  function ParseLong(s: string): (r: Option<int>)
    ensures r.Some? ==> LONG_MIN <= r.value <= LONG_MAX
    ensures r.Some? ==> 1 <= |s|
  {
    var signed := |s| > 0 && (s[0] == '-' || s[0] == '+');
    var digits := if signed then s[1..] else s;
    if digits == [] || !AllDigits(digits) then None
    else
      var v: int := if |s| > 0 && s[0] == '-' then 0 - DigitsValue(digits) as int else DigitsValue(digits);
      if LONG_MIN <= v <= LONG_MAX then Some(v) else None
  }

  /** Printing a 64-bit number and parsing it back gives the number. */
  lemma ParseLongText(n: int)
    requires LONG_MIN <= n <= LONG_MAX
    ensures ParseLong(LongText(n)) == Some(n)
  {
    var s := LongText(n);
    if n < 0 {
      assert s[1..] == Decimal(-n);
      DigitsValueOfDecimal(-n);
    } else {
      DigitsValueOfDecimal(n);
    }
  }

  /** Distinct numbers print as distinct text, whatever their size. */
  lemma LongTextInjective(a: int, b: int)
    ensures LongText(a) == LongText(b) ==> a == b
  {
    if LongText(a) == LongText(b) {
      if a < 0 {
        assert LongText(a)[1..] == Decimal(-a);
        assert LongText(b)[1..] == Decimal(-b);
        DigitsValueOfDecimal(-a);
        DigitsValueOfDecimal(-b);
      } else {
        DigitsValueOfDecimal(a);
        DigitsValueOfDecimal(b);
      }
    }
  }

  function Pow10(k: nat): (p: nat)
    ensures p >= 1
  {
    if k == 0 then 1 else 10 * Pow10(k - 1)
  }

  /** A DateTimeFormatter field of `width` letters: the last `width` digits, zero-padded. */
  function Pad(n: nat, width: nat): (s: string)
    ensures |s| == width && AllDigits(s)
  {
    if width == 0 then [] else Pad(n / 10, width - 1) + [DigitChar(n % 10)]
  }

  /** Numbers that fit the field print as distinct fields. */
  lemma {:induction false} PadInjective(a: nat, b: nat, width: nat)
    requires a < Pow10(width) && b < Pow10(width)
    ensures Pad(a, width) == Pad(b, width) ==> a == b
  {
    if width > 0 && Pad(a, width) == Pad(b, width) {
      var pa, pb := Pad(a, width), Pad(b, width);
      assert DigitValue(pa[width - 1]) == a % 10 && DigitValue(pb[width - 1]) == b % 10;
      assert pa[..width - 1] == Pad(a / 10, width - 1);
      assert pb[..width - 1] == Pad(b / 10, width - 1);
      PadInjective(a / 10, b / 10, width - 1);
    }
  }

  /**
    hutool's CharUtil.isBlankChar: Java whitespace, Unicode space separators,
    and a few invisible characters (BOM, LRE, NUL, Hangul filler, Braille blank,
    Mongolian vowel separator).
  */
  predicate IsBlankChar(c: char)
  {
    || c == ' ' || c == '\t' || c == '\n' || c == '\r' || c == '\U{000B}' || c == '\U{000C}'
    || ('\U{001C}' <= c <= '\U{001F}')
    || c == '\U{00A0}' || c == '\U{1680}' || ('\U{2000}' <= c <= '\U{200A}')
    || c == '\U{2028}' || c == '\U{2029}' || c == '\U{202F}' || c == '\U{205F}' || c == '\U{3000}'
    || c == '\U{FEFF}' || c == '\U{202A}' || c == '\U{0000}' || c == '\U{3164}' || c == '\U{2800}'
    || c == '\U{180E}'
  }

  /** StrUtil.isBlank on a non-null string: empty, or blank characters only. */
  predicate IsBlank(s: string)
  {
    forall i :: 0 <= i < |s| ==> IsBlankChar(s[i])
  }
}
