/**
 * Python's `float(literal)` on the decimal literals a Synfig document stores
 * in `value` attributes, and Python's `round(x)` (round half to even).
 * Values are exact rationals: the binary floating-point rounding of
 * `float` is not modelled.
 */
module Numbers {
  import opened Errors
  import opened Strings

  predicate IsDigit(c: char)
  {
    '0' <= c <= '9'
  }

  predicate AllDigits(s: string)
  {
    forall i :: 0 <= i < |s| ==> IsDigit(s[i])
  }

  /** The value of a string of decimal digits ("" has value 0). */
  function DigitsValue(s: string): nat
    requires AllDigits(s)
  {
    if s == [] then 0
    else DigitsValue(s[..|s| - 1]) * 10 + (s[|s| - 1] as int - '0' as int)
  }

  function Pow10(n: nat): (r: nat)
    ensures r >= 1
  {
    if n == 0 then 1 else 10 * Pow10(n - 1)
  }

  /** `m * 10^e` for a possibly negative exponent. */
  function ScaleBy10(m: real, e: int): real
  {
    if e >= 0 then m * Pow10(e) as real else m / Pow10(-e) as real
  }

  /** The value of the decimal literal `whole.frac`. */
  function DecimalValue(whole: string, frac: string): real
    requires AllDigits(whole) && AllDigits(frac)
  {
    DigitsValue(whole) as real + DigitsValue(frac) as real / Pow10(|frac|) as real
  }

  /** Digits with at most one decimal point and at least one digit. */
  function ParseMantissa(s: string): Option<real>
  {
    match Find(s, ".")
    case None =>
      if s != [] && AllDigits(s) then Some(DigitsValue(s) as real) else None
    case Some(k) =>
      var whole, frac := s[..k], s[k + 1..];
      if AllDigits(whole) && AllDigits(frac) && |whole| + |frac| > 0
      then Some(DecimalValue(whole, frac))
      else None
  }

  /** An optionally signed, non-empty string of digits. */
  function ParseExponent(s: string): Option<int>
  {
    var neg := s != [] && s[0] == '-';
    var digits := if s != [] && (s[0] == '-' || s[0] == '+') then s[1..] else s;
    if digits != [] && AllDigits(digits)
    then Some(if neg then -(DigitsValue(digits) as int) else DigitsValue(digits) as int)
    else None
  }

  /** The index of the first exponent marker `e` or `E`. */
  function ExponentMark(s: string): (r: Option<nat>)
    ensures r.Some? ==> r.value < |s| && s[r.value] in "eE"
    ensures r.Some? ==> forall i :: 0 <= i < r.value ==> s[i] !in "eE"
    ensures r.None? ==> forall i :: 0 <= i < |s| ==> s[i] !in "eE"
  {
    if s == [] then None
    else if s[0] in "eE" then Some(0)
    else match ExponentMark(s[1..])
      case None => None
      case Some(k) => Some(k + 1)
  }

  function ParseUnsigned(s: string): Option<real>
  {
    match ExponentMark(s)
    case None => ParseMantissa(s)
    case Some(k) =>
      match (ParseMantissa(s[..k]), ParseExponent(s[k + 1..]))
      case (Some(m), Some(e)) => Some(ScaleBy10(m, e))
      case _ => None
  }

  /** `float(s)`: an optional sign, a mantissa and an optional exponent;
      None where Python raises ValueError. */
  function ParseFloat(s: string): Option<real>
  {
    if s != [] && s[0] == '-' then
      match ParseUnsigned(s[1..])
      case None => None
      case Some(v) => Some(-v)
    else if s != [] && s[0] == '+' then ParseUnsigned(s[1..])
    else ParseUnsigned(s)
  }

  /** A plain run of digits parses to its decimal value. */
  lemma ParseFloatDigits(s: string)
    requires s != [] && AllDigits(s)
    ensures ParseFloat(s) == Some(DigitsValue(s) as real)
  {
    assert forall i :: 0 <= i < |s| ==> s[i] != 'e' && s[i] != 'E' && s[i] != '.' by {
      assert forall i :: 0 <= i < |s| ==> IsDigit(s[i]);
    }
    assert ExponentMark(s).None?;
    FindAbsent(s, ".");
    assert ParseUnsigned(s) == ParseMantissa(s);
  }

  /** A literal `whole.frac`, the form in which the document stores real
      values, parses to `whole + frac / 10^|frac|`. */
  lemma ParseFloatDecimal(whole: string, frac: string)
    requires AllDigits(whole) && AllDigits(frac) && |whole| + |frac| > 0
    ensures ParseFloat(whole + "." + frac) == Some(DecimalValue(whole, frac))
  {
    var s := whole + "." + frac;
    assert forall i :: 0 <= i < |s| ==> s[i] != 'e' && s[i] != 'E' by {
      assert forall i :: 0 <= i < |s| ==> IsDigit(s[i]) || s[i] == '.';
    }
    assert ExponentMark(s).None?;
    assert ParseUnsigned(s) == ParseMantissa(s);
    assert '.' !in whole by {
      assert forall i :: 0 <= i < |whole| ==> IsDigit(whole[i]);
    }
    FindAfterLine(whole, ".", frac);
    assert s[..|whole|] == whole;
    assert s[|whole| + 1..] == frac;
    var v := DecimalValue(whole, frac);
    assert ParseMantissa(s) == Some(v);
    assert s[0] != '-' && s[0] != '+' by {
      assert IsDigit(s[0]) || s[0] == '.';
    }
    assert ParseFloat(s) == ParseUnsigned(s);
    assert ParseFloat(s) == Some(v);
  }

  /** Python's `round(x)`: the nearest integer, ties going to the even one. */
  function RoundHalfEven(x: real): (n: int)
    ensures -0.5 <= x - n as real <= 0.5
    ensures (x - n as real == 0.5 || n as real - x == 0.5) ==> n % 2 == 0
  {
    var f := x.Floor;
    var d := x - f as real;
    if d < 0.5 then f
    else if d > 0.5 then f + 1
    else if f % 2 == 0 then f
    else f + 1
  }

  /** The two properties in RoundHalfEven's contract determine it. */
  lemma RoundHalfEvenUnique(x: real, m: int)
    requires -0.5 <= x - m as real <= 0.5
    requires (x - m as real == 0.5 || m as real - x == 0.5) ==> m % 2 == 0
    ensures m == RoundHalfEven(x)
  {
  }

  /** Ties go to the even neighbour: 0.5 and -0.5 round to 0, 1.5 and 2.5
      both to 2. */
  lemma RoundHalfEvenTies()
    ensures RoundHalfEven(0.5) == 0 && RoundHalfEven(-0.5) == 0
    ensures RoundHalfEven(1.5) == 2 && RoundHalfEven(2.5) == 2
  {
  }
}
