/**
 * Number conversions on both sides of the wire: Python's `int()` and `float()`
 * as the routes call them (`_parse_int`, `_parse_float`, bare `int(...)`), and
 * JavaScript's `Number()` as the pages call it on form strings.
 *
 * Numerals are an optional sign and decimal digits, with an optional fraction
 * for `float()` and `Number()`. Surrounding blanks, digit separators,
 * exponents, hexadecimal, `inf` and `nan` are not modelled.
 */
module Numerals {
  import opened Json

  predicate IsDigit(c: char)
  {
    '0' <= c <= '9'
  }

  predicate AllDigits(s: string)
  {
    forall i :: 0 <= i < |s| ==> IsDigit(s[i])
  }

  function DigitValue(c: char): nat
    requires IsDigit(c)
  {
    c as int - '0' as int
  }

  /** The value of a run of decimal digits, most significant first. */
  function DigitsValue(s: string): nat
    requires AllDigits(s)
  {
    if s == [] then 0 else 10 * DigitsValue(s[..|s| - 1]) + DigitValue(s[|s| - 1])
  }

  function Pow10(k: nat): (p: nat)
    ensures p >= 1
  {
    if k == 0 then 1 else 10 * Pow10(k - 1)
  }

  /** k digits never reach 10^k. */
  lemma {:induction false} DigitsValueBelow(s: string)
    requires AllDigits(s)
    ensures DigitsValue(s) < Pow10(|s|)
  {
    if s != [] {
      DigitsValueBelow(s[..|s| - 1]);
    }
  }

  /** Python `int(s)` on a string: an optional sign, then at least one digit. */
  function ParseInteger(s: string): Option<int>
  {
    if |s| > 0 && (s[0] == '+' || s[0] == '-') then
      var digits := s[1..];
      if |digits| > 0 && AllDigits(digits) then
        var magnitude: int := DigitsValue(digits);
        Some(if s[0] == '-' then -magnitude else magnitude)
      else None
    else if |s| > 0 && AllDigits(s) then Some(DigitsValue(s))
    else None
  }

  /** The position of the first '.', or |s| when there is none. */
  function DotIndex(s: string): (k: nat)
    ensures k <= |s|
    ensures k < |s| ==> s[k] == '.'
    ensures forall j :: 0 <= j < k ==> s[j] != '.'
  {
    if s == [] then 0 else if s[0] == '.' then 0 else 1 + DotIndex(s[1..])
  }

  /** The digits before the point. */
  function WholePart(s: string): string
  {
    s[..DotIndex(s)]
  }

  /** The digits after the point, empty when there is no point. */
  function FractionPart(s: string): string
  {
    var k := DotIndex(s);
    if k < |s| then s[k + 1..] else []
  }

  /** An unsigned decimal: digits, a point, digits, with at least one digit in all ("5", "5.", ".5", "5.25"). */
  function ParseUnsignedDecimal(s: string): Option<real>
  {
    var whole, fraction := WholePart(s), FractionPart(s);
    if AllDigits(whole) && AllDigits(fraction) && |whole| + |fraction| > 0 then
      Some(DigitsValue(whole) as real + DigitsValue(fraction) as real / Pow10(|fraction|) as real)
    else None
  }

  /** Python `float(s)` and JavaScript `Number(s)` on a non-empty numeral string. */
  function ParseDecimal(s: string): Option<real>
  {
    if |s| > 0 && (s[0] == '+' || s[0] == '-') then
      match ParseUnsignedDecimal(s[1..])
      case None => None
      case Some(x) => Some(if s[0] == '-' then -x else x)
    else ParseUnsignedDecimal(s)
  }

  /** Every integer numeral is a decimal numeral with the same value. */
  lemma IntegerIsDecimal(s: string)
    requires ParseInteger(s).Some?
    ensures ParseDecimal(s) == Some(ParseInteger(s).value as real)
  {
    var digits := if s[0] == '+' || s[0] == '-' then s[1..] else s;
    NoDotInDigits(digits);
    assert WholePart(digits) == digits;
  }

  lemma NoDotInDigits(s: string)
    requires AllDigits(s)
    ensures DotIndex(s) == |s|
  {
  }

  /** An unsigned decimal lies between its whole part and the next integer. */
  lemma UnsignedDecimalBounds(s: string)
    requires ParseUnsignedDecimal(s).Some?
    ensures AllDigits(WholePart(s))
    ensures DigitsValue(WholePart(s)) as real <= ParseUnsignedDecimal(s).value < DigitsValue(WholePart(s)) as real + 1.0
  {
    var fraction := FractionPart(s);
    DigitsValueBelow(fraction);
    var f, p := DigitsValue(fraction) as real, Pow10(|fraction|) as real;
    FractionBelowOne(f, p);
  }

  lemma FractionBelowOne(f: real, p: real)
    requires 0.0 <= f < p
    ensures 0.0 <= f / p < 1.0
  {
  }

  /** Python `int(x)` on a number: truncation toward zero. */
  function Trunc(x: real): (n: int)
    ensures 0.0 <= x ==> 0 <= n && n as real <= x < n as real + 1.0
    ensures x < 0.0 ==> n <= 0 && n as real - 1.0 < x <= n as real
  {
    if x >= 0.0 then x.Floor else -((-x).Floor)
  }

  /** Python `int(v)` on a decoded JSON value; None is the TypeError or ValueError it raises. */
  function PyInt(v: JsonValue): Option<int>
  {
    match v
    case JNull => None
    case JBool(b) => Some(if b then 1 else 0)
    case JNum(x) => Some(Trunc(x))
    case JStr(s) => ParseInteger(s)
  }

  /** Python `float(v)` on a decoded JSON value; None is the exception it raises. */
  function PyFloat(v: JsonValue): Option<real>
  {
    match v
    case JNull => None
    case JBool(b) => Some(if b then 1.0 else 0.0)
    case JNum(x) => Some(x)
    case JStr(s) => ParseDecimal(s)
  }

  /** `_parse_int(value, field)`: the integer, or the message "Invalid <field>". */
  function ParseIntField(v: JsonValue, field: string): (r: Result<int, string>)
    ensures r.Success? <==> PyInt(v).Some?
    ensures r.Success? ==> r.value == PyInt(v).value
    ensures r.Failure? ==> r.error == "Invalid " + field
  {
    match PyInt(v)
    case Some(n) => Success(n)
    case None => Failure("Invalid " + field)
  }

  /** `_parse_float(value, field)`: the number, or the message "Invalid <field>". */
  function ParseFloatField(v: JsonValue, field: string): (r: Result<real, string>)
    ensures r.Success? <==> PyFloat(v).Some?
    ensures r.Success? ==> r.value == PyFloat(v).value
    ensures r.Failure? ==> r.error == "Invalid " + field
  {
    match PyFloat(v)
    case Some(x) => Success(x)
    case None => Failure("Invalid " + field)
  }

  /**
   * JavaScript `Number(s)` on a form string, as `JSON.stringify` then sends it:
   * "" becomes 0, a numeral its value, and anything else NaN, which JSON carries as null.
   */
  function JsNumber(s: string): (v: JsonValue)
    ensures v == JNull || v.JNum?
    ensures s == "" ==> v == JNum(0.0)
    ensures s != "" ==> (v.JNum? <==> ParseDecimal(s).Some?)
  {
    if s == "" then JNum(0.0)
    else match ParseDecimal(s)
      case Some(x) => JNum(x)
      case None => JNull
  }

  function DigitChar(d: nat): (c: char)
    requires d < 10
    ensures IsDigit(c) && DigitValue(c) == d
  {
    ('0' as int + d) as char
  }

  /** Decimal rendering of a natural number, as a user types it into a number input. */
  function ShowNat(n: nat): (s: string)
    ensures |s| > 0 && AllDigits(s)
  {
    if n < 10 then [DigitChar(n)] else ShowNat(n / 10) + [DigitChar(n % 10)]
  }

  function ShowInt(n: int): string
  {
    if n < 0 then "-" + ShowNat(-n) else ShowNat(n)
  }

  lemma {:induction false} DigitsValueShowNat(n: nat)
    ensures DigitsValue(ShowNat(n)) == n
  {
    if n >= 10 {
      DigitsValueShowNat(n / 10);
      var s := ShowNat(n);
      assert s[..|s| - 1] == ShowNat(n / 10);
    }
  }

  /** Parsing a rendered integer gives it back. */
  lemma ParseShowInt(n: int)
    ensures ParseInteger(ShowInt(n)) == Some(n)
  {
    if n < 0 {
      DigitsValueShowNat(-n);
      assert ShowInt(n)[1..] == ShowNat(-n);
    } else {
      DigitsValueShowNat(n);
    }
  }

  /**
   * An integer typed into a page's number input reaches a route's `int()` as
   * that integer: `Number()` on the page, then `int()` on the server.
   */
  lemma TypedIntegerArrives(n: int)
    ensures PyInt(JsNumber(ShowInt(n))) == Some(n)
  {
    ParseShowInt(n);
    IntegerIsDecimal(ShowInt(n));
  }

  /**
   * A decimal typed into a page's number input reaches a route's `int()`
   * truncated toward zero to its whole part.
   */
  lemma TypedDecimalTruncates(s: string)
    requires |s| > 0 && s[0] != '+' && s[0] != '-'
    requires ParseUnsignedDecimal(s).Some?
    ensures AllDigits(WholePart(s))
    ensures PyInt(JsNumber(s)) == Some(DigitsValue(WholePart(s)))
  {
    UnsignedDecimalBounds(s);
  }
}
