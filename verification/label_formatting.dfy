/**
 * The label rule both bar views implement in `getFormattedLabel`: a label that
 * does not parse as a number is kept; a numeric label is printed as its
 * integer truncation when `displayInteger` is set, and with one decimal
 * otherwise. Parsing (`String.toFloatOrNull`) and the locale-dependent
 * `String.format("%.1f", ...)` are parameters; `Float.toInt()` and
 * `Int.toString()` are defined here, with a decimal reader to check them.
 */
module LabelFormatting {
  import opened Wrappers

  const IntMin: int := -0x8000_0000
  const IntMax: int := 0x7FFF_FFFF

  /** The two text conversions whose behaviour this model leaves abstract. */
  datatype NumberText = NumberText(
    toFloatOrNull: string -> Option<real>,
    formatOneDecimal: real -> string
  )

  /**
   * Kotlin's `Float.toInt()`: rounds toward zero and saturates at the bounds
   * of a 32-bit `Int`.
   */
  function FloatToInt(v: real): (r: int)
    ensures IntMin <= r <= IntMax
    ensures IntMin as real < v < IntMax as real && 0.0 <= v ==> r as real <= v < r as real + 1.0
    ensures IntMin as real < v < IntMax as real && v < 0.0 ==> r as real - 1.0 < v <= r as real
    ensures v >= IntMax as real ==> r == IntMax
    ensures v <= IntMin as real ==> r == IntMin
  {
    if v >= IntMax as real then IntMax
    else if v <= IntMin as real then IntMin
    else if v >= 0.0 then v.Floor
    else -((-v).Floor)
  }

  predicate IsDigit(c: char) {
    '0' <= c <= '9'
  }

  predicate AllDigits(s: string) {
    forall i :: 0 <= i < |s| ==> IsDigit(s[i])
  }

  function DigitChar(d: nat): (c: char)
    requires d < 10
    ensures IsDigit(c)
    ensures c as int - '0' as int == d
  {
    ('0' as int + d) as char
  }

  /** Decimal digits of a natural number, most significant first. */
  function NatToString(n: nat): (s: string)
    ensures |s| > 0 && AllDigits(s)
  {
    if n < 10 then [DigitChar(n)] else NatToString(n / 10) + [DigitChar(n % 10)]
  }

  /** Kotlin's `Int.toString()`: a minus sign for negative numbers, then the digits. */
  function IntToString(i: int): (s: string)
    ensures |s| > 0
  {
    if i < 0 then "-" + NatToString(-i) else NatToString(i)
  }

  /** The value of a string of decimal digits. */
  function DigitsValue(s: string): nat
    requires AllDigits(s)
  {
    if |s| == 0 then 0 else DigitsValue(s[..|s| - 1]) * 10 + (s[|s| - 1] as int - '0' as int)
  }

  /** A reference decimal reader: an optional minus sign followed by at least one digit. */
  function ParseInt(s: string): Option<int> {
    if |s| > 1 && s[0] == '-' && AllDigits(s[1..]) then Some(-(DigitsValue(s[1..]) as int))
    else if |s| > 0 && AllDigits(s) then Some(DigitsValue(s))
    else None
  }

  lemma {:induction false} NatToStringRoundTrip(n: nat)
    ensures DigitsValue(NatToString(n)) == n
  {
    var s := NatToString(n);
    if n >= 10 {
      NatToStringRoundTrip(n / 10);
      assert s[..|s| - 1] == NatToString(n / 10);
    }
  }

  /** Printing an integer and reading it back gives the integer. */
  lemma IntToStringRoundTrip(i: int)
    ensures ParseInt(IntToString(i)) == Some(i)
  {
    var s := IntToString(i);
    if i < 0 {
      assert s[1..] == NatToString(-i);
      NatToStringRoundTrip(-i);
    } else {
      NatToStringRoundTrip(i);
      assert IsDigit(s[0]);
    }
  }

  /** `getFormattedLabel` of both bar views. */
  function GetFormattedLabel(text: string, displayInteger: bool, number: NumberText): (r: string)
    ensures number.toFloatOrNull(text).None? ==> r == text
    ensures number.toFloatOrNull(text).Some? && displayInteger ==>
              ParseInt(r) == Some(FloatToInt(number.toFloatOrNull(text).value))
    ensures number.toFloatOrNull(text).Some? && !displayInteger ==>
              r == number.formatOneDecimal(number.toFloatOrNull(text).value)
  {
    match number.toFloatOrNull(text)
    case Some(v) =>
      if displayInteger then
        IntToStringRoundTrip(FloatToInt(v));
        IntToString(FloatToInt(v))
      else number.formatOneDecimal(v)
    case None => text
  }
}
