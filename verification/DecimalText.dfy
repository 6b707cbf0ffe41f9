// Canonical decimal text (src/market_data_service/domain/decimal_values.py).

module DecimalText {
  import opened Optional
  import opened Grid

  /** A finite decimal: sign, coefficient, exponent. */
  datatype Decimal = Decimal(negative: bool, coefficient: nat, exponent: int)

  const ZERO := Decimal(false, 0, 0)

  function Pow10(n: nat): (p: nat)
    ensures p > 0
  {
    if n == 0 then 1 else 10 * Pow10(n - 1)
  }

  // ---- The number meant ----

  function Signed(d: Decimal): int { if d.negative then -(d.coefficient as int) else d.coefficient }

  /** The number counted in units of 10^low. */
  function InUnits(d: Decimal, low: int): int
    requires low <= d.exponent
  {
    Signed(d) * Pow10(d.exponent - low)
  }

  /** Numeric equality: the same count in the finer of the two units. */
  predicate SameNumber(a: Decimal, b: Decimal)
  {
    var low := Min(a.exponent, b.exponent);
    InUnits(a, low) == InUnits(b, low)
  }

  /** Numeric order, by the same comparison. */
  predicate AtMost(a: Decimal, b: Decimal)
  {
    var low := Min(a.exponent, b.exponent);
    InUnits(a, low) <= InUnits(b, low)
  }

  // ---- Printing ----

  /** Every spelling of zero becomes plain zero; other finite values are kept. */
  function ParseDecimal(d: Decimal): Decimal { if d.coefficient == 0 then ZERO else d }

  function Digit(n: nat): char
    requires n < 10
  {
    ('0' as int + n) as char
  }

  function Digits(n: nat): (text: string)
    ensures text != ""
  {
    if n < 10 then [Digit(n)] else Digits(n / 10) + [Digit(n % 10)]
  }

  function Zeros(n: nat): (text: string)
    ensures |text| == n
  {
    if n == 0 then "" else Zeros(n - 1) + "0"
  }

  function Sign(d: Decimal): string { if d.negative then "-" else "" }

  /** The coefficient's digits, left-padded so that a digit stands before the point. */
  function Padded(coefficient: nat, places: nat): (text: string)
    ensures |text| > places
  {
    var digits := Digits(coefficient);
    Zeros(Max(0, places + 1 - |digits|)) + digits
  }

  /** Positional notation without exponent. */
  function FormatPlain(d: Decimal): string
  {
    if d.exponent >= 0 then Sign(d) + Digits(d.coefficient) + Zeros(d.exponent)
    else
      var padded := Padded(d.coefficient, -d.exponent);
      var point := |padded| + d.exponent;
      Sign(d) + padded[..point] + "." + padded[point..]
  }

  function StripRight(text: string, c: char): string
  {
    if text != "" && text[|text| - 1] == c then StripRight(text[..|text| - 1], c) else text
  }

  /** One text per number: positional notation, trailing fraction zeros and a bare point removed. */
  function CanonicalText(d: Decimal): string
  {
    var text := FormatPlain(ParseDecimal(d));
    var stripped := if '.' in text then StripRight(StripRight(text, '0'), '.') else text;
    if stripped == "" || stripped == "-0" then "0" else stripped
  }

  // ---- Parsing ----

  predicate IsDigit(c: char) { '0' <= c <= '9' }

  predicate AllDigits(text: string) { forall i :: 0 <= i < |text| ==> IsDigit(text[i]) }

  function ValueOf(digits: string): (n: nat)
    requires AllDigits(digits)
  {
    if digits == "" then 0
    else ValueOf(digits[..|digits| - 1]) * 10 + (digits[|digits| - 1] as int - '0' as int)
  }

  function PointAt(body: string): (at: nat)
    ensures at <= |body|
    ensures forall i :: 0 <= i < at ==> body[i] != '.'
    ensures at < |body| ==> body[at] == '.'
  {
    if body == "" || body[0] == '.' then 0 else 1 + PointAt(body[1..])
  }

  function Body(text: string): string
  {
    if text != "" && (text[0] == '-' || text[0] == '+') then text[1..] else text
  }

  function Whole(text: string): string { Body(text)[..PointAt(Body(text))] }

  function Fraction(text: string): string
  {
    var at := PointAt(Body(text));
    if at < |Body(text)| then Body(text)[at + 1..] else ""
  }

  /** Positional decimal text: optional sign, digits, at most one point. */
  function ParsePlain(text: string): Option<Decimal>
  {
    if AllDigits(Whole(text)) && AllDigits(Fraction(text)) && |Whole(text)| + |Fraction(text)| > 0 then
      Some(Decimal(text[0] == '-', ValueOf(Whole(text) + Fraction(text)), -|Fraction(text)|))
    else None
  }

  /** Accept only text that is already canonical. */
  function ParseCanonical(text: string): Option<Decimal>
  {
    var parsed := ParsePlain(text);
    if parsed.Some? && CanonicalText(parsed.value) == text then parsed else None
  }

  // ---- Normal form ----

  /** The decimal a canonical text spells: no positive exponent, no removable fraction digit. */
  function Plain(d: Decimal): (p: Decimal)
    decreases d.coefficient
  {
    if d.coefficient == 0 then ZERO
    else if d.exponent > 0 then Decimal(d.negative, d.coefficient * Pow10(d.exponent), 0)
    else if d.exponent < 0 && d.coefficient % 10 == 0 then Plain(Decimal(d.negative, d.coefficient / 10, d.exponent + 1))
    else d
  }

  predicate IsPlain(d: Decimal)
  {
    && d.exponent <= 0
    && (d.exponent < 0 ==> d.coefficient % 10 != 0)
    && (d.coefficient == 0 ==> d == ZERO)
  }

  lemma {:induction false} PlainIsPlain(d: Decimal)
    ensures IsPlain(Plain(d))
    decreases d.coefficient
  {
    if d.coefficient != 0 {
      if d.exponent > 0 {
        ProductPositive(d.coefficient, Pow10(d.exponent));
      } else if d.exponent < 0 && d.coefficient % 10 == 0 {
        PlainIsPlain(Decimal(d.negative, d.coefficient / 10, d.exponent + 1));
      }
    }
  }

  lemma ProductPositive(a: int, b: int)
    requires a > 0 && b > 0
    ensures a * b > 0
  {
  }

  lemma {:induction false} Pow10Add(a: nat, b: nat)
    ensures Pow10(a + b) == Pow10(a) * Pow10(b)
    decreases a
  {
    if a > 0 {
      Pow10Add(a - 1, b);
      assert Pow10(a + b) == 10 * Pow10(a - 1 + b);
      assert 10 * (Pow10(a - 1) * Pow10(b)) == (10 * Pow10(a - 1)) * Pow10(b);
    }
  }

  /** Counting in a finer unit multiplies the count. */
  lemma FinerUnits(d: Decimal, low: int, lower: int)
    requires lower <= low <= d.exponent
    ensures InUnits(d, lower) == InUnits(d, low) * Pow10(low - lower)
  {
    Pow10Add(d.exponent - low, low - lower);
    var a, b := Pow10(d.exponent - low), Pow10(low - lower);
    assert Pow10(d.exponent - lower) == a * b;
    assert Signed(d) * (a * b) == (Signed(d) * a) * b;
  }

  lemma MulCancel(a: int, b: int, k: int)
    requires k > 0
    ensures a * k == b * k <==> a == b
  {
    if a < b {
      assert (b - a) * k > 0;
    } else if b < a {
      assert (a - b) * k > 0;
    }
  }

  /** Numeric equality may be checked in any common unit. */
  lemma SameInAnyUnit(a: Decimal, b: Decimal, low: int)
    requires low <= a.exponent && low <= b.exponent
    ensures SameNumber(a, b) <==> InUnits(a, low) == InUnits(b, low)
  {
    var common := Min(a.exponent, b.exponent);
    FinerUnits(a, common, low);
    FinerUnits(b, common, low);
    MulCancel(InUnits(a, common), InUnits(b, common), Pow10(common - low));
  }

  lemma MulOrder(a: int, b: int, k: int)
    requires k > 0
    ensures a * k <= b * k <==> a <= b
  {
    if a < b {
      assert (b - a) * k > 0;
    } else if b < a {
      assert (a - b) * k > 0;
    }
  }

  /** Numeric order may be checked in any common unit. */
  lemma AtMostInAnyUnit(a: Decimal, b: Decimal, low: int)
    requires low <= a.exponent && low <= b.exponent
    ensures AtMost(a, b) <==> InUnits(a, low) <= InUnits(b, low)
  {
    var common := Min(a.exponent, b.exponent);
    FinerUnits(a, common, low);
    FinerUnits(b, common, low);
    MulOrder(InUnits(a, common), InUnits(b, common), Pow10(common - low));
  }

  /** The order is total, equal both ways exactly for the same number, and carries over. */
  lemma AtMostIsTheOrder(a: Decimal, b: Decimal, c: Decimal)
    ensures AtMost(a, b) || AtMost(b, a)
    ensures AtMost(a, b) && AtMost(b, a) <==> SameNumber(a, b)
    ensures AtMost(a, b) && AtMost(b, c) ==> AtMost(a, c)
  {
    var low := Min(a.exponent, Min(b.exponent, c.exponent));
    AtMostInAnyUnit(a, b, low);
    AtMostInAnyUnit(b, a, low);
    AtMostInAnyUnit(b, c, low);
    AtMostInAnyUnit(a, c, low);
    SameInAnyUnit(a, b, low);
  }

  /** Not below zero is a matter of the sign and the coefficient alone. */
  lemma NotNegativeExactlyWhen(d: Decimal)
    ensures AtMost(ZERO, d) <==> !d.negative || d.coefficient == 0
  {
    var low := Min(0, d.exponent);
    assert InUnits(ZERO, low) == 0;
    MulOrder(0, Signed(d), Pow10(d.exponent - low));
  }

  lemma SameNumberTransitive(a: Decimal, b: Decimal, c: Decimal)
    requires SameNumber(a, b) && SameNumber(b, c)
    ensures SameNumber(a, c)
  {
    var low := Min(a.exponent, Min(b.exponent, c.exponent));
    SameInAnyUnit(a, b, low);
    SameInAnyUnit(b, c, low);
    SameInAnyUnit(a, c, low);
  }

  lemma {:induction false} PlainSameNumber(d: Decimal)
    ensures SameNumber(d, Plain(d))
    decreases d.coefficient
  {
    if d.coefficient == 0 {
      var low := Min(d.exponent, 0);
      assert InUnits(d, low) == 0 && InUnits(ZERO, low) == 0;
    } else if d.exponent > 0 {
      assert InUnits(Plain(d), 0) == Signed(Plain(d)) * Pow10(0) == Signed(Plain(d));
      assert InUnits(d, 0) == Signed(d) * Pow10(d.exponent);
      if d.negative {
        assert Signed(d) * Pow10(d.exponent) == -(d.coefficient * Pow10(d.exponent));
      }
    } else if d.exponent < 0 && d.coefficient % 10 == 0 {
      var shorter := Decimal(d.negative, d.coefficient / 10, d.exponent + 1);
      assert Signed(d) == 10 * Signed(shorter);
      assert Pow10(1) == 10 * Pow10(0) == 10 && Pow10(0) == 1;
      assert InUnits(shorter, d.exponent) == Signed(shorter) * 10;
      assert InUnits(d, d.exponent) == Signed(d);
      assert SameNumber(d, shorter);
      PlainSameNumber(shorter);
      SameNumberTransitive(d, shorter, Plain(d));
    }
  }

  /** Normal forms are unique per number. */
  lemma PlainUnique(a: Decimal, b: Decimal)
    requires IsPlain(a) && IsPlain(b) && SameNumber(a, b)
    ensures a == b
  {
    if a.exponent <= b.exponent {
      PlainUniqueOrdered(a, b);
    } else {
      PlainUniqueOrdered(b, a);
    }
  }

  lemma PlainUniqueOrdered(a: Decimal, b: Decimal)
    requires IsPlain(a) && IsPlain(b) && SameNumber(a, b) && a.exponent <= b.exponent
    ensures a == b
  {
    var places := b.exponent - a.exponent;
    assert InUnits(a, a.exponent) == Signed(a) * Pow10(0) == Signed(a);
    assert Signed(a) == Signed(b) * Pow10(places);
    if places > 0 {
      var p := Pow10(places - 1);
      assert Signed(b) * (10 * p) == 10 * (Signed(b) * p);
      TenDivides(a, Signed(b) * p);
    }
  }

  lemma TenDivides(a: Decimal, q: int)
    requires Signed(a) == 10 * q
    ensures a.coefficient % 10 == 0
  {
    assert a.coefficient == 10 * q || a.coefficient == 10 * (-q);
  }

  /** Two decimals have one normal form exactly when they are the same number. */
  lemma SamePlainExactlyWhenSameNumber(a: Decimal, b: Decimal)
    ensures Plain(a) == Plain(b) <==> SameNumber(a, b)
  {
    PlainSameNumber(a);
    PlainSameNumber(b);
    PlainIsPlain(a);
    PlainIsPlain(b);
    if Plain(a) == Plain(b) {
      SameNumberTransitive(a, Plain(a), b);
    }
    if SameNumber(a, b) {
      SameNumberTransitive(Plain(a), a, b);
      SameNumberTransitive(Plain(a), b, Plain(b));
      PlainUnique(Plain(a), Plain(b));
    }
  }
}
