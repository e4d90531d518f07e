/**
 * The few pieces of JavaScript value semantics the weather backend relies on:
 * truthiness (`!x`), `parseFloat`, and the decimal rendering of a
 * non-negative integer (`String(n)`, used in template literals).
 */
module JsValues {

  /** A JavaScript number as `parseFloat` can produce it; doubles are modelled as exact reals. */
  datatype JsNumber = NaN | Finite(value: real) | Infinite(negative: bool)

  /**
   * A value of a JSON request body field. `Undefined` is a missing key;
   * `Other` is an object. Arrays are not modelled.
   */
  datatype JsValue = Undefined | Null | Bool(b: bool) | Num(n: real) | Str(s: string) | Other

  /** JavaScript falsiness; a JSON body cannot carry `NaN`, so these are all falsy values. */
  predicate Falsy(v: JsValue) {
    v == Undefined || v == Null || v == Bool(false) || v == Num(0.0) || v == Str("")
  }

  predicate IsDigit(c: char) {
    '0' <= c <= '9'
  }

  predicate AllDigits(s: string) {
    forall i :: 0 <= i < |s| ==> IsDigit(s[i])
  }

  function DigitValue(c: char): (d: nat)
    requires IsDigit(c)
    ensures d < 10
  {
    c as int - '0' as int
  }

  function DigitChar(d: nat): (c: char)
    requires d < 10
    ensures IsDigit(c) && DigitValue(c) == d
  {
    ('0' as int + d) as char
  }

  function Pow10(n: nat): (r: nat)
    ensures r >= 1
  {
    if n == 0 then 1 else 10 * Pow10(n - 1)
  }

  /** The value of a string of decimal digits, most significant digit first. */
  function DigitsValue(s: string): nat
    requires AllDigits(s)
  {
    if |s| == 0 then 0 else 10 * DigitsValue(s[..|s| - 1]) + DigitValue(s[|s| - 1])
  }

  /** The length of the longest prefix of `s` made of decimal digits. */
  function DigitRun(s: string): (n: nat)
    ensures n <= |s|
    ensures AllDigits(s[..n])
    ensures n < |s| ==> !IsDigit(s[n])
  {
    if |s| > 0 && IsDigit(s[0]) then
      var n := 1 + DigitRun(s[1..]);
      assert s[..n] == [s[0]] + s[1..][..n - 1];
      n
    else 0
  }

  /** `String(n)` for a non-negative integer: canonical decimal digits, and they denote `n`. */
  function NatToString(n: nat): (s: string)
    ensures |s| > 0 && AllDigits(s)
    ensures |s| > 1 ==> s[0] != '0'
    ensures DigitsValue(s) == n
    decreases n
  {
    if n < 10 then [DigitChar(n)]
    else
      var s := NatToString(n / 10) + [DigitChar(n % 10)];
      assert s[..|s| - 1] == NatToString(n / 10);
      s
  }

  /** The characters JavaScript's `parseFloat` skips before the number (StrWhiteSpaceChar). */
  predicate IsJsWhitespace(c: char) {
    c == ' ' || c == '\t' || c == '\n' || c == '\r' || c == '\U{B}' || c == '\U{C}'
    || c == '\U{A0}' || c == '\U{1680}' || ('\U{2000}' <= c <= '\U{200A}')
    || c == '\U{2028}' || c == '\U{2029}' || c == '\U{202F}' || c == '\U{205F}'
    || c == '\U{3000}' || c == '\U{FEFF}'
  }

  function TrimStart(s: string): (t: string)
    ensures |t| <= |s| && t == s[|s| - |t|..]
    ensures |t| > 0 ==> !IsJsWhitespace(t[0])
    ensures forall i :: 0 <= i < |s| - |t| ==> IsJsWhitespace(s[i])
  {
    if |s| > 0 && IsJsWhitespace(s[0]) then TrimStart(s[1..]) else s
  }

  /** `x * 10^e` for an integer exponent `e`. */
  function Scale(x: real, e: int): real {
    if e >= 0 then x * Pow10(e) as real else x / Pow10(-e) as real
  }

  /**
   * The exponent part `e`/`E`, optional sign, digits at the start of `s`, or 0 when
   * `s` does not start with a complete one (then `parseFloat` ignores it).
   */
  function ExponentPart(s: string): int {
    if |s| >= 2 && (s[0] == 'e' || s[0] == 'E') then
      var negative := s[1] == '-';
      var digits := if s[1] == '-' || s[1] == '+' then s[2..] else s[1..];
      var n := DigitRun(digits);
      if n == 0 then 0
      else if negative then -(DigitsValue(digits[..n]) as int) else DigitsValue(digits[..n])
    else 0
  }

  /**
   * `parseFloat` after white space and sign: `Infinity`, or the longest prefix of the
   * form digits [. digits] [exponent] with at least one mantissa digit; else `NaN`.
   * Trailing text is ignored.
   */
  function ParseUnsigned(u: string): JsNumber {
    if |u| >= 8 && u[..8] == "Infinity" then Infinite(false) else ParseDecimal(u)
  }

  function ParseDecimal(u: string): JsNumber {
    var ip := DigitRun(u);
    if ip < |u| && u[ip] == '.' then ParseFraction(u[..ip], u[ip + 1..])
    else if ip == 0 then NaN
    else Finite(Scale(DigitsValue(u[..ip]) as real, ExponentPart(u[ip..])))
  }

  /** The number written `whole.frac`, both digit strings. */
  function DecimalValue(whole: string, frac: string): real
    requires AllDigits(whole) && AllDigits(frac)
  {
    DigitsValue(whole) as real + DigitsValue(frac) as real / Pow10(|frac|) as real
  }

  /** The part after the decimal point, given the (possibly empty) integer digits before it. */
  function ParseFraction(whole: string, rest: string): JsNumber
    requires AllDigits(whole)
  {
    var fp := DigitRun(rest);
    if |whole| == 0 && fp == 0 then NaN
    else
      var value := DecimalValue(whole, rest[..fp]);
      Finite(Scale(value, ExponentPart(rest[fp..])))
  }

  function Negate(x: JsNumber): JsNumber {
    match x
    case Finite(v) => Finite(-v)
    case Infinite(neg) => Infinite(!neg)
    case NaN => NaN
  }

  /** `parseFloat` on a string: skip leading white space, read an optional sign, parse the rest. */
  function ParseFloatString(s: string): JsNumber {
    var t := TrimStart(s);
    if |t| > 0 && t[0] == '-' then Negate(ParseUnsigned(t[1..]))
    else if |t| > 0 && t[0] == '+' then ParseUnsigned(t[1..])
    else ParseUnsigned(t)
  }

  /** `parseFloat(v)`: a number is returned as is, a string is parsed, anything else is NaN. */
  function ParseFloat(v: JsValue): (r: JsNumber)
    ensures v.Num? ==> r == Finite(v.n)
    ensures !v.Num? && !v.Str? ==> r == NaN
  {
    match v
    case Num(n) => Finite(n)
    case Str(s) => ParseFloatString(s)
    case _ => NaN
  }

  lemma {:induction false} DigitRunAll(s: string)
    requires AllDigits(s)
    ensures DigitRun(s) == |s|
  {
    if |s| > 0 {
      DigitRunAll(s[1..]);
    }
  }

  lemma DecimalDigits(d: string)
    requires |d| > 0 && AllDigits(d)
    ensures ParseDecimal(d) == Finite(DigitsValue(d) as real)
  {
    DigitRunAll(d);
    assert d[..|d|] == d;
    var empty: string := [];
    assert d[|d|..] == empty;
    assert ExponentPart(empty) == 0;
    assert Scale(DigitsValue(d) as real, 0) == DigitsValue(d) as real;
  }

  lemma UnsignedDigits(d: string)
    requires |d| > 0 && AllDigits(d)
    ensures ParseUnsigned(d) == Finite(DigitsValue(d) as real)
  {
    assert |d| >= 8 ==> d[..8] != "Infinity" by {
      if |d| >= 8 { assert d[..8][0] == d[0]; }
    }
    DecimalDigits(d);
  }

  /** `parseFloat(String(n)) == n`: the decimal rendering of an integer parses back to it. */
  lemma ParseRenderedNat(n: nat)
    ensures ParseFloatString(NatToString(n)) == Finite(n as real)
  {
    var s := NatToString(n);
    assert !IsJsWhitespace(s[0]) && s[0] != '-' && s[0] != '+';
    assert TrimStart(s) == s;
    UnsignedDigits(s);
  }

  /** The digit run ends exactly where the digits do. */
  lemma {:induction false} DigitRunStops(s: string, n: nat)
    requires n <= |s| && AllDigits(s[..n])
    requires n < |s| ==> !IsDigit(s[n])
    ensures DigitRun(s) == n
  {
    if n > 0 {
      assert IsDigit(s[..n][0]);
      assert s[1..][..n - 1] == s[..n][1..];
      DigitRunStops(s[1..], n - 1);
    }
  }

  /** `whole.frac` with digits on at least one side parses to `whole + frac / 10^|frac|`. */
  lemma DecimalWithFraction(whole: string, frac: string)
    requires AllDigits(whole) && AllDigits(frac) && |whole| + |frac| > 0
    ensures ParseDecimal(whole + "." + frac)
      == Finite(DecimalValue(whole, frac))
  {
    var u := whole + "." + frac;
    assert u[..|whole|] == whole;
    assert u[|whole|] == '.';
    DigitRunStops(u, |whole|);
    assert u[|whole| + 1..] == frac;
    FractionDigits(whole, frac);
  }

  /** A fraction made only of digits, with nothing after it, has no exponent. */
  lemma FractionDigits(whole: string, frac: string)
    requires AllDigits(whole) && AllDigits(frac) && |whole| + |frac| > 0
    ensures ParseFraction(whole, frac)
      == Finite(DecimalValue(whole, frac))
  {
    DigitRunAll(frac);
    assert frac[..|frac|] == frac;
    var empty: string := [];
    assert frac[|frac|..] == empty;
    assert ExponentPart(empty) == 0;
    ScaleZero(DecimalValue(whole, frac));
  }

  lemma ScaleZero(x: real)
    ensures Scale(x, 0) == x
  {
    assert Pow10(0) == 1;
  }

  /** The example of a numeric string field: `parseFloat("45.5")` is 45.5. */
  lemma ParseDecimalExample()
    ensures ParseFloatString("45.5") == Finite(45.5)
  {
    var whole, frac := "45", "5";
    assert whole[..1] == "4";
    assert DigitsValue(whole) == 45;
    assert DigitsValue(frac) == 5;
    assert DecimalValue(whole, frac) == 45.5;
    DecimalWithFraction(whole, frac);
    var s := whole + "." + frac;
    assert s == "45.5";
    assert !IsJsWhitespace(s[0]);
    assert TrimStart(s) == s;
    assert !(|s| >= 8);
  }

  /**
   * A string that starts, after no white space, with a character that can begin neither
   * a sign, a number nor `Infinity` parses to NaN; so do "NaN" and any word.
   */
  lemma ParseNoNumber(s: string)
    requires |s| > 0 && !IsJsWhitespace(s[0]) && !IsDigit(s[0])
    requires s[0] != '-' && s[0] != '+' && s[0] != '.' && s[0] != 'I'
    ensures ParseFloatString(s) == NaN
  {
    var t := TrimStart(s);
    assert t == s;
    assert |s| >= 8 ==> s[..8] != "Infinity" by {
      if |s| >= 8 { assert s[..8][0] == s[0]; }
    }
    assert DigitRun(s) == 0;
  }
}
