/**
 * JavaScript numbers as the site's amount field uses them: `Number(text)` on
 * decimal text (sign, digits, a decimal point, an exponent) and
 * `Number#toString()`. A number is kept as an exact finite decimal,
 * `units × 10^-scale`, in lowest terms.
 */
module JsNumbers {
  import opened Wrappers
  import opened JsStrings
  import opened CivilDates

  /** The value `units × 10^-scale`. */
  datatype Decimal = Decimal(units: int, scale: nat)

  /** Lowest terms: no trailing zero after the decimal point. */
  predicate Reduced(d: Decimal) {
    d.scale == 0 || d.units % 10 != 0
  }

  /** A number in lowest terms, so that equal values are equal numbers. */
  type Number = d: Decimal | Reduced(d) witness Decimal(0, 0)

  /** An integral number. */
  function Whole(n: int): Number {
    Decimal(n, 0)
  }

  /** The number `units × 10^-scale`, already in lowest terms. */
  function Exact(units: int, scale: nat): Number
    requires Reduced(Decimal(units, scale))
  {
    Decimal(units, scale)
  }

  /** `units × 10^-scale` in lowest terms: trailing zeros after the point are dropped. */
  function Reduce(units: int, scale: nat): (r: Number)
    ensures r.scale <= scale
    ensures r.units * Pow10(scale - r.scale) == units
    decreases scale
  {
    if scale > 0 && units % 10 == 0 then
      var r := Reduce(units / 10, scale - 1);
      assert Pow10(scale - r.scale) == 10 * Pow10(scale - 1 - r.scale);
      assert r.units * Pow10(scale - r.scale) == 10 * (r.units * Pow10(scale - 1 - r.scale));
      r
    else Decimal(units, scale)
  }

  /** A number already in lowest terms is its own reduction. */
  lemma ReduceReduced(units: int, scale: nat)
    requires Reduced(Decimal(units, scale))
    ensures Reduce(units, scale) == Decimal(units, scale)
  {
  }

  /** Unary minus: a value in lowest terms stays in lowest terms. */
  function Negate(x: Number): (r: Number)
    ensures r.units == -x.units && r.scale == x.scale
  {
    NegatedDivisible(x.units);
    Decimal(-x.units, x.scale)
  }

  /** A multiple of ten negated is a multiple of ten, and only then. */
  lemma NegatedDivisible(u: int)
    ensures u % 10 == 0 <==> (-u) % 10 == 0
  {
    var q, r := u / 10, u % 10;
    if r == 0 {
      TenthsUnique(-u, -q, 0);
    } else {
      TenthsUnique(-u, -q - 1, 10 - r);
    }
  }

  lemma TenthsUnique(n: int, q: int, r: int)
    requires 0 <= r < 10 && n == 10 * q + r
    ensures n % 10 == r
  {
    var k := q - n / 10;
    assert 10 * k == n % 10 - r;
  }

  // ------------------------------------------------------------------
  // Number(text)

  /** The position of the first `e` or `E`, or the length when there is none. */
  function ExponentAt(s: string): (k: nat)
    ensures k <= |s|
    ensures forall i :: 0 <= i < k ==> s[i] != 'e' && s[i] != 'E'
    ensures k < |s| ==> s[k] == 'e' || s[k] == 'E'
    decreases |s|
  {
    if |s| == 0 || s[0] == 'e' || s[0] == 'E' then 0 else 1 + ExponentAt(s[1..])
  }

  /** Digits with at most one decimal point and at least one digit: their value, unreduced. */
  function MantissaValue(m: string): Option<Decimal> {
    var pieces := Split(m, '.');
    if |pieces| == 1 && pieces[0] != "" && AllDigits(pieces[0]) then
      Some(Decimal(DigitsValue(pieces[0]), 0))
    else if |pieces| == 2 && (pieces[0] != "" || pieces[1] != "") && AllDigits(pieces[0]) && AllDigits(pieces[1]) then
      Some(Decimal(DigitsValue(pieces[0]) * Pow10(|pieces[1]|) + DigitsValue(pieces[1]), |pieces[1]|))
    else None
  }

  /** The digits after `e`, with an optional sign. */
  function ExponentValue(e: string): Option<int> {
    if |e| > 1 && (e[0] == '+' || e[0] == '-') && AllDigits(e[1..]) then
      Some(if e[0] == '-' then -(DigitsValue(e[1..]) as int) else DigitsValue(e[1..]))
    else if e != "" && AllDigits(e) then Some(DigitsValue(e))
    else None
  }

  /** `units × 10^-scale × 10^exp` in lowest terms. */
  function Shift(units: int, scale: nat, exp: int): Number {
    if exp <= scale then Reduce(units, scale - exp) else Reduce(units * Pow10(exp - scale), 0)
  }

  /** An unsigned decimal literal: a mantissa and an optional exponent. */
  function UnsignedValue(s: string): Option<Number> {
    var k := ExponentAt(s);
    match MantissaValue(s[..k])
    case None => None
    case Some(m) =>
      if k == |s| then Some(Reduce(m.units, m.scale))
      else
        match ExponentValue(s[k + 1..])
        case None => None
        case Some(e) => Some(Shift(m.units, m.scale, e))
  }

  /**
   * `Number(text)`: surrounding white space is ignored, blank text is 0, and
   * an optional sign precedes a decimal literal such as `25`, `25.5`, `.5`
   * or `2.5e1`. `None` stands for the texts that give `NaN`, and for
   * `Infinity` and the hexadecimal, octal and binary forms, which a number
   * input never holds.
   */
  function NumberValue(text: string): (r: Option<Number>)
    ensures Trim(text) == "" ==> r == Some(Whole(0))
  {
    var t := Trim(text);
    if t == "" then Some(Whole(0))
    else if t[0] == '-' then
      match UnsignedValue(t[1..])
      case None => None
      case Some(x) => Some(Negate(x))
    else if t[0] == '+' then UnsignedValue(t[1..])
    else UnsignedValue(t)
  }

  // ------------------------------------------------------------------
  // Number#toString()

  /** The digits of `a × 10^-scale` without a sign: the integer part, and the fraction after a point. */
  function MagnitudeText(a: nat, scale: nat): (s: string)
    ensures |s| > 0 && IsDigit(s[0]) && IsDigit(s[|s| - 1])
    ensures forall i :: 0 <= i < |s| ==> IsDigit(s[i]) || s[i] == '.'
  {
    if scale == 0 then NatToString(a)
    else PointText(NatToString(Quotient(a, Pow10(scale))), PadDigits(Remainder(a, Pow10(scale)), scale))
  }

  /** Whole part and remainder of `a / p`. */
  function Quotient(a: nat, p: nat): nat
    requires p >= 1
  {
    a / p
  }

  function Remainder(a: nat, p: nat): (r: nat)
    requires p >= 1
    ensures r < p
  {
    a % p
  }

  /** Integer digits, a point, fraction digits. */
  function PointText(d: string, f: string): (s: string)
    requires d != "" && f != "" && AllDigits(d) && AllDigits(f)
    ensures |s| > 0 && IsDigit(s[0]) && IsDigit(s[|s| - 1])
    ensures forall i :: 0 <= i < |s| ==> IsDigit(s[i]) || s[i] == '.'
  {
    var s := d + "." + f;
    assert s[0] == d[0] && s[|s| - 1] == f[|f| - 1];
    assert forall i :: |d| < i < |s| ==> s[i] == f[i - |d| - 1];
    s
  }

  /** `x.toString()`: a minus sign for negatives, the integer digits, then the fraction digits if any. */
  function NumberText(x: Number): (s: string)
    ensures |s| > 0
    ensures x.scale == 0 ==> s == IntToString(x.units)
    ensures forall i :: 0 <= i < |s| ==> IsDigit(s[i]) || s[i] == '.' || s[i] == '-'
  {
    var a := if x.units < 0 then -x.units else x.units;
    (if x.units < 0 then "-" else "") + MagnitudeText(a, x.scale)
  }

  /** The text of a number holds no line break and no `$`. */
  lemma NumberTextPlain(x: Number)
    ensures '\n' !in NumberText(x) && '$' !in NumberText(x)
  {
    var s := NumberText(x);
    forall i | 0 <= i < |s|
      ensures s[i] != '\n' && s[i] != '$'
    {
    }
  }

  // ------------------------------------------------------------------
  // the round trip

  /** Text without an exponent is read as its mantissa, in lowest terms. */
  lemma UnsignedValueWithoutExponent(s: string)
    requires forall i :: 0 <= i < |s| ==> s[i] != 'e' && s[i] != 'E'
    ensures UnsignedValue(s) == if MantissaValue(s).Some? then Some(Reduce(MantissaValue(s).value.units, MantissaValue(s).value.scale)) else None
  {
    assert ExponentAt(s) == |s|;
    assert s[..|s|] == s;
  }

  /** The digits of a whole magnitude are read back as that magnitude. */
  lemma MantissaOfWhole(a: nat)
    ensures MantissaValue(NatToString(a)) == Some(Decimal(a, 0))
  {
    SplitWithout(NatToString(a), '.');
    DigitsValueOfNatToString(a);
  }

  /** Two runs of digits around a point are read as one run, scaled by the length of the second. */
  lemma MantissaOfParts(d: string, f: string)
    requires AllDigits(d) && AllDigits(f) && d != ""
    ensures MantissaValue(d + ['.'] + f) == Some(Decimal(DigitsValue(d) * Pow10(|f|) + DigitsValue(f), |f|))
  {
    SplitAroundPoint(d, f);
    MantissaOfSplit(d, f);
  }

  lemma SplitAroundPoint(d: string, f: string)
    requires AllDigits(d) && AllDigits(f)
    ensures Split(d + ['.'] + f, '.') == [d, f]
  {
    assert '.' !in d && '.' !in f;
    SplitAtFirst(d, '.', f);
    SplitWithout(f, '.');
  }

  lemma MantissaOfSplit(d: string, f: string)
    requires AllDigits(d) && AllDigits(f) && d != ""
    requires Split(d + ['.'] + f, '.') == [d, f]
    ensures MantissaValue(d + ['.'] + f) == Some(Decimal(DigitsValue(d) * Pow10(|f|) + DigitsValue(f), |f|))
  {
  }

  lemma DivideByPositive(a: nat, p: nat)
    requires p >= 1
    ensures Quotient(a, p) * p + Remainder(a, p) == a
  {
  }

  /** Fewer than `width` digits' worth, padded to `width` digits, reads back unchanged. */
  lemma PadDigitsRoundTrip(r: nat, width: nat)
    requires r < Pow10(width)
    ensures DigitsValue(PadDigits(r, width)) == r
  {
    PadDigitsValue(r, width);
    LemmaModUnique(r, Pow10(width), 0, r);
  }

  /** The digits of `q`, a point and `r` padded to `scale` digits are read as `q × 10^scale + r` at that scale. */
  lemma MantissaOfPointText(q: nat, r: nat, scale: nat)
    requires r < Pow10(scale)
    ensures MantissaValue(NatToString(q) + ['.'] + PadDigits(r, scale)) == Some(Decimal(q * Pow10(scale) + r, scale))
  {
    MantissaOfParts(NatToString(q), PadDigits(r, scale));
    DigitsValueOfNatToString(q);
    PadDigitsRoundTrip(r, scale);
  }

  /** The integer digits, a point and the fraction digits are read back as the magnitude. */
  lemma MantissaOfFraction(a: nat, scale: nat)
    requires scale > 0
    ensures MantissaValue(MagnitudeText(a, scale)) == Some(Decimal(a, scale))
  {
    var p := Pow10(scale);
    assert MagnitudeText(a, scale) == NatToString(Quotient(a, p)) + ['.'] + PadDigits(Remainder(a, p), scale);
    MantissaOfPointText(Quotient(a, p), Remainder(a, p), scale);
    DivideByPositive(a, p);
  }

  /** Reading back the digits of a magnitude in lowest terms gives that magnitude. */
  lemma UnsignedValueOfMagnitude(a: nat, scale: nat)
    requires Reduced(Decimal(a, scale))
    ensures UnsignedValue(MagnitudeText(a, scale)) == Some(Exact(a, scale))
  {
    UnsignedValueWithoutExponent(MagnitudeText(a, scale));
    if scale == 0 {
      MantissaOfWhole(a);
    } else {
      MantissaOfFraction(a, scale);
    }
    ReduceReduced(a, scale);
  }

  /** Text starting and ending with a digit is read as an unsigned literal. */
  lemma NumberValueUnsigned(m: string)
    requires m != "" && IsDigit(m[0]) && IsDigit(m[|m| - 1])
    ensures NumberValue(m) == UnsignedValue(m)
  {
    TrimOfUnpadded(m);
  }

  /** A minus sign before such text negates it. */
  lemma NumberValueNegative(m: string)
    requires m != "" && IsDigit(m[0]) && IsDigit(m[|m| - 1])
    ensures NumberValue("-" + m) == if UnsignedValue(m).Some? then Some(Negate(UnsignedValue(m).value)) else None
  {
    var s := "-" + m;
    TrimOfUnpadded(s);
    assert s[1..] == m;
  }

  /** `Number(x.toString())` is `x` for every number in lowest terms. */
  lemma NumberValueOfNumberText(x: Number)
    ensures NumberValue(NumberText(x)) == Some(x)
  {
    if x.units < 0 {
      NegativeRoundTrip(x);
    } else {
      NonNegativeRoundTrip(x);
    }
  }

  /** A non-negative number is its digits, which read back as the number. */
  lemma NonNegativeRoundTrip(x: Number)
    requires x.units >= 0
    ensures NumberValue(NumberText(x)) == Some(x)
  {
    var m := MagnitudeText(x.units, x.scale);
    UnsignedValueOfMagnitude(x.units, x.scale);
    assert NumberText(x) == m;
    NumberValueUnsigned(m);
  }

  /** A negative number is a minus sign before the digits of its magnitude, which is in lowest terms too. */
  lemma NegativeRoundTrip(x: Number)
    requires x.units < 0
    ensures NumberValue(NumberText(x)) == Some(x)
  {
    var a := -x.units;
    NegatedDivisible(x.units);
    assert Reduced(Decimal(a, x.scale));
    var m := MagnitudeText(a, x.scale);
    assert NumberText(x) == "-" + m;
    UnsignedValueOfMagnitude(a, x.scale);
    NumberValueNegative(m);
    NegateExact(a, x.scale);
    assert Decimal(-a, x.scale) == x;
  }

  /** Negating a number in lowest terms flips the sign of its units. */
  lemma NegateExact(a: int, scale: nat)
    requires Reduced(Decimal(a, scale))
    ensures Negate(Exact(a, scale)) == Decimal(-a, scale)
  {
  }

  /** So `Number` of the decimal text of an integer is that integer. */
  lemma NumberValueOfIntToString(n: int)
    ensures NumberValue(IntToString(n)) == Some(Whole(n))
  {
    NumberValueOfNumberText(Whole(n));
  }

  /** Texts a number input holds while an amount is typed: a fraction, a trailing zero, an exponent, nothing. */
  lemma AmountTexts()
    ensures NumberValue("25.5") == Some(Exact(255, 1))
    ensures NumberValue("25.50") == Some(Exact(255, 1))
    ensures NumberValue("1e1") == Some(Whole(10))
    ensures NumberValue("") == Some(Whole(0))
  {
    assert NatToString(2) == "2";
    assert NatToString(25) == "25";
    assert PadDigits(5, 1) == "5";
    assert Pow10(1) == 10;
    assert NumberText(Decimal(255, 1)) == "25.5";
    NumberValueOfNumberText(Decimal(255, 1));
    TwoDecimalsText();
    ExponentText();
  }

  /** `Number("25.50")` is 25.5: the trailing zero is dropped. */
  lemma TwoDecimalsText()
    ensures NumberValue("25.50") == Some(Exact(255, 1))
  {
    NumberValueUnsigned("25.50");
    TwoDecimalsUnsigned();
  }

  /** Without a sign the text reads as its reduced mantissa. */
  lemma TwoDecimalsUnsigned()
    ensures UnsignedValue("25.50") == Some(Exact(255, 1))
  {
    var s := "25.50";
    assert forall i :: 0 <= i < |s| ==> s[i] != 'e' && s[i] != 'E';
    UnsignedValueWithoutExponent(s);
    TwoDecimalsMantissa();
    ReduceTwoDecimals();
  }

  /** 2550 hundredths in lowest terms are 255 tenths. */
  lemma ReduceTwoDecimals()
    ensures Reduce(2550, 2) == Decimal(255, 1)
  {
    assert Reduce(255, 1) == Decimal(255, 1);
  }

  /** The digits of "25.50" around its point. */
  lemma TwoDecimalsMantissa()
    ensures MantissaValue("25.50") == Some(Decimal(2550, 2))
  {
    assert "25.50" == "25" + ['.'] + "50";
    MantissaOfParts("25", "50");
    assert DigitsValue("25") == 25 by {
      assert "25"[..1] == "2" && "2"[..0] == "";
    }
    assert DigitsValue("50") == 50 by {
      assert "50"[..1] == "5" && "5"[..0] == "";
    }
    assert Pow10(2) == 100 by {
      assert Pow10(1) == 10;
    }
  }

  /** `Number("1e1")` is 10. */
  lemma ExponentText()
    ensures NumberValue("1e1") == Some(Whole(10))
  {
    NumberValueUnsigned("1e1");
    ExponentUnsigned();
  }

  /** "1e1" without a sign: the mantissa 1 shifted one place. */
  lemma ExponentUnsigned()
    ensures UnsignedValue("1e1") == Some(Whole(10))
  {
    var t := "1e1";
    assert ExponentAt(t) == 1;
    assert t[..1] == "1" && t[2..] == "1";
    DigitOne();
    assert Shift(1, 0, 1) == Whole(10) by {
      assert Pow10(1) == 10;
    }
  }

  /** The text "1" is the mantissa 1 and the exponent 1. */
  lemma DigitOne()
    ensures MantissaValue("1") == Some(Decimal(1, 0)) && ExponentValue("1") == Some(1)
  {
    SplitWithout("1", '.');
    assert DigitsValue("1") == 1 by {
      assert "1"[..0] == "";
    }
  }
}
