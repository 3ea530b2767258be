/**
 * The part of `java.math.BigDecimal` the statement parser reaches: construction
 * from a string drawn from `[-0-9.]+`, comparison with zero, and `abs()`.
 */
module Decimals {
  import opened Wrappers
  import opened Text

  /** The number `unscaled / 10^scale`, as a `BigDecimal` holds it. */
  datatype Decimal = Decimal(unscaled: int, scale: nat)

  function Pow10(n: nat): (r: nat)
    ensures r >= 1
  {
    if n == 0 then 1 else 10 * Pow10(n - 1)
  }

  /** The exact rational value of a decimal. */
  function Value(d: Decimal): real {
    d.unscaled as real / Pow10(d.scale) as real
  }

  /** `d.compareTo(BigDecimal.ZERO) == 0`. */
  predicate IsZero(d: Decimal) {
    Value(d) == 0.0
  }

  /** `d.compareTo(BigDecimal.ZERO) < 0`. */
  predicate IsNegative(d: Decimal) {
    Value(d) < 0.0
  }

  /** The sign of a decimal is the sign of its unscaled integer. */
  lemma {:induction false} SignOfValue(d: Decimal)
    ensures IsZero(d) <==> d.unscaled == 0
    ensures IsNegative(d) <==> d.unscaled < 0
  {
    var p := Pow10(d.scale) as real;
    assert p > 0.0;
    assert Value(d) * p == d.unscaled as real;
  }

  /** `BigDecimal.abs()`: same scale, value without its sign. */
  function Abs(d: Decimal): (r: Decimal)
    ensures r.scale == d.scale
    ensures Value(r) == if IsNegative(d) then -Value(d) else Value(d)
    ensures !IsNegative(r)
  {
    SignOfValue(d);
    var r := Decimal(if d.unscaled < 0 then -d.unscaled else d.unscaled, d.scale);
    SignOfValue(r);
    var p := Pow10(d.scale) as real;
    assert Value(r) * p == r.unscaled as real;
    assert Value(d) * p == d.unscaled as real;
    r
  }

  function DigitValue(c: char): nat
    requires IsDigit(c)
  {
    c as int - '0' as int
  }

  /** The natural number a run of decimal digits denotes. */
  function DigitsValue(s: string): nat
    requires AllDigits(s)
  {
    if s == [] then 0 else DigitsValue(s[..|s| - 1]) * 10 + DigitValue(s[|s| - 1])
  }

  /** A run of digits denotes zero exactly when every digit is '0'. */
  lemma {:induction false} DigitsValueZero(s: string)
    requires AllDigits(s)
    ensures DigitsValue(s) == 0 <==> forall c | c in s :: c == '0'
  {
    if s != [] {
      var init := s[..|s| - 1];
      DigitsValueZero(init);
      assert s == init + [s[|s| - 1]];
      assert DigitValue(s[|s| - 1]) == 0 <==> s[|s| - 1] == '0';
      assert forall c :: c in s <==> c in init || c == s[|s| - 1];
      assert DigitsValue(s) == DigitsValue(init) * 10 + DigitValue(s[|s| - 1]);
      assert DigitsValue(s) == 0 <==> DigitsValue(init) == 0 && s[|s| - 1] == '0';
      if forall c | c in s :: c == '0' {
        assert forall c | c in init :: c == '0';
        assert s[|s| - 1] in s;
      }
    }
  }

  /** The characters after an optional leading '-'. */
  function Unsigned(s: string): string {
    if |s| > 0 && s[0] == '-' then s[1..] else s
  }

  /**
   * `BigDecimal`'s string grammar, restricted to the characters `-`, `.` and
   * digits: an optional leading '-', then digits with at most one '.', and at
   * least one digit in all.
   */
  predicate IsDecimalLiteral(s: string) {
    var body := Unsigned(s);
    && (forall i | 0 <= i < |body| :: IsDigit(body[i]) || body[i] == '.')
    && (forall i, j | 0 <= i < j < |body| :: body[i] == '.' ==> body[j] != '.')
    && (exists i | 0 <= i < |body| :: IsDigit(body[i]))
  }

  /** Integer and fraction digits of `body`, split at its first '.'. */
  function SplitAtPoint(body: string): (string, string) {
    match FirstIndexOf(body, '.')
    case None => (body, "")
    case Some(k) => (body[..k], body[k + 1..])
  }

  /**
   * `new BigDecimal(s)`: `None` where the constructor throws
   * `NumberFormatException`.
   */
  function ParseDecimal(s: string): (r: Option<Decimal>)
    ensures r.Some? ==> r.value.scale < |s|
    ensures r.Some? && r.value.unscaled < 0 ==> s[0] == '-'
  {
    var negative := |s| > 0 && s[0] == '-';
    var (intPart, fracPart) := SplitAtPoint(Unsigned(s));
    if AllDigits(intPart) && AllDigits(fracPart) && |intPart| + |fracPart| > 0 then
      var magnitude: int := DigitsValue(intPart + fracPart);
      Some(Decimal(if negative then -magnitude else magnitude, |fracPart|))
    else
      None
  }

  /** The constructor accepts exactly the decimal literals. */
  lemma {:induction false} ParseDecimalAcceptsLiterals(s: string)
    ensures ParseDecimal(s).Some? <==> IsDecimalLiteral(s)
  {
    var body := Unsigned(s);
    var (intPart, fracPart) := SplitAtPoint(body);
    match FirstIndexOf(body, '.')
    case None =>
      if IsDecimalLiteral(s) {
        assert AllDigits(intPart);
      }
    case Some(k) =>
      assert body == intPart + ['.'] + fracPart;
      if ParseDecimal(s).Some? {
        forall i, j | 0 <= i < j < |body| && body[i] == '.'
          ensures body[j] != '.'
        {
          assert i == k;
          assert body[j] == fracPart[j - k - 1];
        }
        if |intPart| > 0 {
          assert IsDigit(body[0]);
        } else {
          assert IsDigit(body[k + 1]);
        }
      }
      if IsDecimalLiteral(s) {
        forall i | 0 <= i < |intPart|
          ensures IsDigit(intPart[i])
        {
          assert body[i] == intPart[i];
          assert body[i] != '.' by {
            assert '.' !in body[..k];
            assert body[i] == body[..k][i];
          }
        }
        forall i | 0 <= i < |fracPart|
          ensures IsDigit(fracPart[i])
        {
          assert body[k + 1 + i] == fracPart[i];
        }
        var d :| 0 <= d < |body| && IsDigit(body[d]);
        assert d != k;
      }
  }

  /** Appending one more digit shifts every earlier place up by ten. */
  lemma {:induction false} ShiftPlace(x: int, p: int, y: int, d: int)
    ensures (x * p + y) * 10 + d == x * (10 * p) + (y * 10 + d)
  {
    calc {
      (x * p + y) * 10 + d;
      x * p * 10 + y * 10 + d;
      { assert x * p * 10 == x * (10 * p); }
      x * (10 * p) + (y * 10 + d);
    }
  }

  /** Digits read left to right: the digits of `b` are the low-order places of `a + b`. */
  lemma {:induction false} DigitsValueConcat(a: string, b: string)
    requires AllDigits(a) && AllDigits(b)
    ensures AllDigits(a + b)
    ensures DigitsValue(a + b) == DigitsValue(a) * Pow10(|b|) + DigitsValue(b)
    decreases |b|
  {
    var ab := a + b;
    assert AllDigits(ab) by {
      forall i | 0 <= i < |ab|
        ensures IsDigit(ab[i])
      {
        if i < |a| { assert ab[i] == a[i]; } else { assert ab[i] == b[i - |a|]; }
      }
    }
    if b != [] {
      var init := b[..|b| - 1];
      assert ab[..|ab| - 1] == a + init;
      assert AllDigits(init) by {
        forall i | 0 <= i < |init|
          ensures IsDigit(init[i])
        {
          assert init[i] == b[i];
        }
      }
      DigitsValueConcat(a, init);
      assert ab[|ab| - 1] == b[|b| - 1];
      assert DigitsValue(ab) == DigitsValue(a + init) * 10 + DigitValue(b[|b| - 1]);
      assert DigitsValue(b) == DigitsValue(init) * 10 + DigitValue(b[|b| - 1]);
      assert Pow10(|b|) == 10 * Pow10(|init|);
      ShiftPlace(DigitsValue(a), Pow10(|init|), DigitsValue(init), DigitValue(b[|b| - 1]));
    } else {
      assert ab == a;
    }
  }

  /**
   * `new BigDecimal(s)` reads its digits positionally: the integer digits,
   * then the fraction digits as the low-order places, at a scale equal to
   * the number of fraction digits, negated after a leading '-'.
   */
  lemma {:induction false} ParsedValue(s: string)
    requires ParseDecimal(s).Some?
    ensures var (intPart, fracPart) := SplitAtPoint(Unsigned(s));
      && AllDigits(intPart) && AllDigits(fracPart)
      && ParseDecimal(s).value.scale == |fracPart|
      && var magnitude := DigitsValue(intPart) * Pow10(|fracPart|) + DigitsValue(fracPart);
         ParseDecimal(s).value.unscaled == if |s| > 0 && s[0] == '-' then -magnitude else magnitude
  {
    var (intPart, fracPart) := SplitAtPoint(Unsigned(s));
    DigitsValueConcat(intPart, fracPart);
  }

  /** Every digit in `s` is '0'. */
  predicate OnlyZeroDigits(s: string) {
    forall c | c in s && IsDigit(c) :: c == '0'
  }

  lemma {:induction false} OnlyZeroDigitsConcat(a: string, b: string)
    ensures OnlyZeroDigits(a + b) <==> OnlyZeroDigits(a) && OnlyZeroDigits(b)
  {
    assert forall c :: c in a + b <==> c in a || c in b;
  }

  /** The sign and the point hold no digit, so they do not change which digits a literal has. */
  lemma {:induction false} ZeroDigitsOfParts(s: string)
    ensures var (intPart, fracPart) := SplitAtPoint(Unsigned(s));
      OnlyZeroDigits(s) <==> OnlyZeroDigits(intPart + fracPart)
  {
    var body := Unsigned(s);
    var (intPart, fracPart) := SplitAtPoint(body);
    if |s| > 0 && s[0] == '-' {
      assert s == ['-'] + body;
      OnlyZeroDigitsConcat(['-'], body);
    }
    OnlyZeroDigitsConcat(intPart, fracPart);
    match FirstIndexOf(body, '.')
    case None =>
    case Some(k) =>
      assert body == intPart + ['.'] + fracPart;
      OnlyZeroDigitsConcat(intPart + ['.'], fracPart);
      OnlyZeroDigitsConcat(intPart, ['.']);
  }

  /**
   * A parsed amount compares equal to zero exactly when every digit in its
   * text is '0' ("0.00", "-0", ".0").
   */
  lemma {:induction false} ParsedZeroIffZeroDigits(s: string)
    requires ParseDecimal(s).Some?
    ensures IsZero(ParseDecimal(s).value) <==> OnlyZeroDigits(s)
  {
    var (intPart, fracPart) := SplitAtPoint(Unsigned(s));
    var digits := intPart + fracPart;
    SignOfValue(ParseDecimal(s).value);
    DigitsValueZero(digits);
    ZeroDigitsOfParts(s);
  }

  /**
   * A parsed amount is below zero exactly when its text starts with '-' and
   * it is not zero: the sign decides EXPENSE or INCOME, and "-0" is neither
   * negative nor kept.
   */
  lemma {:induction false} ParsedSignFollowsMinus(s: string)
    requires ParseDecimal(s).Some?
    ensures IsNegative(ParseDecimal(s).value) <==> |s| > 0 && s[0] == '-' && !IsZero(ParseDecimal(s).value)
  {
    SignOfValue(ParseDecimal(s).value);
  }

  /** "1.2.3" has two points and "-" has no digit: the constructor throws on both. */
  lemma {:induction false} MalformedAmountExamples()
    ensures ParseDecimal("1.2.3").None?
    ensures ParseDecimal("-").None?
  {
    ParseDecimalAcceptsLiterals("1.2.3");
    assert Unsigned("1.2.3")[1] == '.' && Unsigned("1.2.3")[3] == '.';
    ParseDecimalAcceptsLiterals("-");
  }

  /** "0.00" and "-0" parse, and compare equal to zero. */
  lemma {:induction false} ZeroAmountExamples()
    ensures ParseDecimal("0.00").Some? && IsZero(ParseDecimal("0.00").value)
    ensures ParseDecimal("-0").Some? && IsZero(ParseDecimal("-0").value)
  {
    assert SplitAtPoint("0.00") == ("0", "00") by {
      assert FirstIndexOf("0.00", '.') == Some(1);
      assert "0.00"[..1] == "0" && "0.00"[2..] == "00";
    }
    ParsedZeroIffZeroDigits("0.00");
    ParsedZeroIffZeroDigits("-0");
  }

  /** "-12.34" is the decimal -1234 / 10^2. */
  lemma {:induction false} NegativeAmountExample()
    ensures ParseDecimal("-12.34") == Some(Decimal(-1234, 2))
  {
    assert Unsigned("-12.34") == "12.34";
    assert FirstIndexOf("12.34", '.') == Some(2);
    assert SplitAtPoint("12.34") == ("12", "34") by {
      assert "12.34"[..2] == "12" && "12.34"[3..] == "34";
    }
    assert "12" + "34" == "1234";
    assert DigitsValue("1234") == 1234 by {
      assert "1234"[..3] == "123";
      assert "123"[..2] == "12";
      assert "12"[..1] == "1";
      assert "1"[..0] == "";
    }
  }
}
