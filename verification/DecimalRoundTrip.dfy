// The canonical text of a decimal names exactly its number
// (src/market_data_service/domain/decimal_values.py).

module DecimalRoundTrip {
  import opened Optional
  import opened Grid
  import opened DecimalText

  // ---- Digit strings ----

  lemma {:induction false} DigitsAreDigits(n: nat)
    ensures AllDigits(Digits(n))
  {
    if n >= 10 {
      DigitsAreDigits(n / 10);
    }
  }

  lemma {:induction false} ValueOfDigits(n: nat)
    ensures AllDigits(Digits(n)) && ValueOf(Digits(n)) == n
  {
    DigitsAreDigits(n);
    if n < 10 {
      assert Digits(n)[..0] == "";
    } else {
      ValueOfDigits(n / 10);
      assert Digits(n)[..|Digits(n)| - 1] == Digits(n / 10);
    }
  }

  lemma {:induction false} ZerosThenDigits(zeros: nat, digits: string)
    requires AllDigits(digits)
    ensures AllDigits(Zeros(zeros) + digits) && ValueOf(Zeros(zeros) + digits) == ValueOf(digits)
    decreases zeros + |digits|
  {
    var text := Zeros(zeros) + digits;
    if digits == "" {
      if zeros > 0 {
        ZerosThenDigits(zeros - 1, "");
        assert text[..|text| - 1] == Zeros(zeros - 1) + "";
      }
    } else {
      ZerosThenDigits(zeros, digits[..|digits| - 1]);
      assert text[..|text| - 1] == Zeros(zeros) + digits[..|digits| - 1];
    }
  }

  lemma {:induction false} ZerosAre(n: nat)
    ensures forall i :: 0 <= i < n ==> Zeros(n)[i] == '0'
  {
    if n > 0 {
      ZerosAre(n - 1);
    }
  }

  lemma ZerosAreDigits(n: nat)
    ensures AllDigits(Zeros(n))
  {
    ZerosAre(n);
  }

  /** Every digit string is its value's digits, padded to its length. */
  lemma {:induction false} PaddingRestores(digits: string)
    requires AllDigits(digits) && digits != ""
    ensures |Digits(ValueOf(digits))| <= |digits|
    ensures digits == Zeros(|digits| - |Digits(ValueOf(digits))|) + Digits(ValueOf(digits))
    decreases |digits|
  {
    var last := |digits| - 1;
    var front, unit := digits[..last], digits[last] as int - '0' as int;
    LastUnit(digits, front, unit);
    if front == "" {
      assert Digits(unit) == [Digit(unit)];
      assert Zeros(0) + Digits(unit) == Digits(unit);
    } else {
      PaddingRestores(front);
      AppendUnit(front, ValueOf(front), unit);
    }
  }

  lemma LastUnit(digits: string, front: string, unit: int)
    requires AllDigits(digits) && digits != ""
    requires front == digits[..|digits| - 1] && unit == digits[|digits| - 1] as int - '0' as int
    ensures 0 <= unit < 10 && digits == front + [Digit(unit)]
    ensures AllDigits(front) && ValueOf(digits) == ValueOf(front) * 10 + unit
  {
  }

  lemma AppendUnit(front: string, n: nat, unit: nat)
    requires front != "" && unit < 10
    requires |Digits(n)| <= |front| && front == Zeros(|front| - |Digits(n)|) + Digits(n)
    ensures |Digits(n * 10 + unit)| <= |front| + 1
    ensures front + [Digit(unit)] == Zeros(|front| + 1 - |Digits(n * 10 + unit)|) + Digits(n * 10 + unit)
  {
    var zeros := |front| - |Digits(n)|;
    if n == 0 {
      assert Digits(0) == "0" && Digits(unit) == [Digit(unit)];
      assert front == Zeros(zeros + 1);
    } else {
      assert (n * 10 + unit) / 10 == n && (n * 10 + unit) % 10 == unit;
      assert Digits(n * 10 + unit) == Digits(n) + [Digit(unit)];
      assert front + [Digit(unit)] == Zeros(zeros) + (Digits(n) + [Digit(unit)]);
    }
  }

  /** Appending zeros to the digits multiplies by a power of ten. */
  lemma {:induction false} DigitsShift(n: nat, places: nat)
    requires n > 0
    ensures Digits(n * Pow10(places)) == Digits(n) + Zeros(places)
    decreases places
  {
    if places > 0 {
      var p := Pow10(places - 1);
      DigitsShift(n, places - 1);
      ProductPositive(n, p);
      DigitsTimesTen(n * p);
      AppendZero(Digits(n), places);
      TenOutside(n, p);
      assert Digits(n * Pow10(places)) == Digits(10 * (n * p));
    } else {
      assert n * Pow10(0) == n && Digits(n) + "" == Digits(n);
    }
  }

  lemma TenOutside(n: int, p: int)
    ensures n * (10 * p) == 10 * (n * p)
  {
  }

  lemma AppendZero(digits: string, places: nat)
    requires places > 0
    ensures digits + Zeros(places) == digits + Zeros(places - 1) + "0"
  {
    assert digits + (Zeros(places - 1) + "0") == digits + Zeros(places - 1) + "0";
  }

  lemma DigitsTimesTen(n: nat)
    requires n > 0
    ensures Digits(10 * n) == Digits(n) + "0"
  {
    assert (10 * n) / 10 == n && (10 * n) % 10 == 0;
  }

  lemma LastDigitOf(n: nat)
    ensures Digits(n)[|Digits(n)| - 1] == Digit(n % 10)
  {
  }

  lemma PaddedFacts(coefficient: nat, places: nat)
    ensures AllDigits(Padded(coefficient, places))
    ensures ValueOf(Padded(coefficient, places)) == coefficient
    ensures Padded(coefficient, places)[|Padded(coefficient, places)| - 1] == Digit(coefficient % 10)
  {
    ValueOfDigits(coefficient);
    ZerosThenDigits(Max(0, places + 1 - |Digits(coefficient)|), Digits(coefficient));
    LastDigitOf(coefficient);
  }

  /** Padding to more places only adds leading zeros where the digits are short. */
  lemma PaddedDropZero(coefficient: nat, places: nat)
    requires coefficient > 0 && coefficient % 10 == 0 && places > 0
    ensures Padded(coefficient, places) == Padded(coefficient / 10, places - 1) + "0"
  {
    assert Digits(coefficient) == Digits(coefficient / 10) + "0";
  }

  // ---- Stripping ----

  lemma StripStops(text: string, c: char)
    requires text != "" && text[|text| - 1] != c
    ensures StripRight(text, c) == text
  {
  }

  lemma StripOne(text: string, c: char)
    ensures StripRight(text + [c], c) == StripRight(text, c)
  {
    assert (text + [c])[..|text|] == text;
  }

  function Stripped(text: string): string { StripRight(StripRight(text, '0'), '.') }

  /** Removing the trailing fraction zeros of the text is moving to the normal form of the number. */
  lemma {:induction false} StrippedIsPlain(d: Decimal)
    requires d.coefficient > 0 && d.exponent < 0
    ensures Stripped(FormatPlain(d)) == FormatPlain(Plain(d))
    decreases d.coefficient
  {
    if d.coefficient % 10 != 0 {
      NoFractionZero(d);
    } else {
      var shorter := Decimal(d.negative, d.coefficient / 10, d.exponent + 1);
      assert Plain(d) == Plain(shorter);
      if d.exponent == -1 {
        LastFractionZero(d, shorter);
      } else {
        StrippedIsPlain(shorter);
        OneFractionZero(d, shorter);
        StripThroughZero(FormatPlain(d), FormatPlain(shorter));
      }
    }
  }

  lemma StripThroughZero(text: string, shorter: string)
    requires text == shorter + "0"
    ensures Stripped(text) == Stripped(shorter)
  {
    StripOne(shorter, '0');
  }

  lemma NoFractionZero(d: Decimal)
    requires d.exponent < 0 && d.coefficient % 10 != 0
    ensures Stripped(FormatPlain(d)) == FormatPlain(d)
  {
    var text := FormatPlain(d);
    var padded := Padded(d.coefficient, -d.exponent);
    PaddedFacts(d.coefficient, -d.exponent);
    assert text[|text| - 1] == padded[|padded| - 1];
    StripStops(text, '0');
    StripStops(text, '.');
  }

  lemma OneFractionZero(d: Decimal, shorter: Decimal)
    requires d.coefficient > 0 && d.exponent < -1 && d.coefficient % 10 == 0
    requires shorter == Decimal(d.negative, d.coefficient / 10, d.exponent + 1)
    ensures FormatPlain(d) == FormatPlain(shorter) + "0"
  {
    var places := -d.exponent;
    PaddedDropZero(d.coefficient, places);
    var padded, p := Padded(d.coefficient, places), Padded(shorter.coefficient, places - 1);
    var point := |padded| - places;
    assert padded[..point] == p[..point] && padded[point..] == p[point..] + "0";
  }

  lemma LastFractionZero(d: Decimal, shorter: Decimal)
    requires d.coefficient > 0 && d.exponent == -1 && d.coefficient % 10 == 0
    requires shorter == Decimal(d.negative, d.coefficient / 10, 0)
    ensures Stripped(FormatPlain(d)) == FormatPlain(shorter)
  {
    PaddedDropZero(d.coefficient, 1);
    var digits := Digits(shorter.coefficient);
    assert Padded(shorter.coefficient, 0) == digits;
    var whole := Sign(d) + digits;
    assert FormatPlain(shorter) == whole;
    assert FormatPlain(d) == whole + "." + "0";
    StripOne(whole + ".", '0');
    StripStops(whole + ".", '0');
    StripOne(whole, '.');
    DigitsAreDigits(shorter.coefficient);
    StripStops(whole, '.');
  }

  /** The canonical text is the positional notation of the normal form. */
  lemma CanonicalTextIsPlain(d: Decimal)
    ensures CanonicalText(d) == FormatPlain(Plain(d))
  {
    if d.coefficient == 0 {
      ZeroText();
    } else {
      PlainTextNotZero(d);
      if d.exponent < 0 {
        HasPoint(d);
        StrippedIsPlain(d);
      } else {
        WholeNumberText(d);
      }
    }
  }

  lemma ZeroText()
    ensures FormatPlain(ZERO) == "0" && CanonicalText(ZERO) == "0"
  {
    assert Digits(0) == "0" && Zeros(0) == "";
    assert FormatPlain(ZERO) == "" + "0" + "" == "0";
  }

  lemma HasPoint(d: Decimal)
    requires d.exponent < 0
    ensures '.' in FormatPlain(d)
  {
    var padded := Padded(d.coefficient, -d.exponent);
    var point := |padded| + d.exponent;
    assert FormatPlain(d)[|Sign(d)| + point] == '.';
  }

  lemma WholeNumberText(d: Decimal)
    requires d.coefficient > 0 && d.exponent >= 0
    ensures FormatPlain(d) == FormatPlain(Plain(d)) && '.' !in FormatPlain(d)
  {
    DigitsShift(d.coefficient, d.exponent);
    DigitsAreDigits(d.coefficient);
    ZerosAreDigits(d.exponent);
    var text := FormatPlain(d);
    assert text == Sign(d) + (Digits(d.coefficient) + Zeros(d.exponent)) + Zeros(0);
  }

  lemma PlainTextNotZero(d: Decimal)
    requires d.coefficient > 0
    ensures FormatPlain(Plain(d)) != "" && FormatPlain(Plain(d)) != "-0"
  {
    PlainIsPlain(d);
    PlainKeepsNonZero(d);
    NotMinusZero(Plain(d));
    ParseFormat(Plain(d));
  }

  lemma MinusZeroParses()
    ensures ParsePlain("-0") == Some(Decimal(true, 0, 0))
  {
    assert Digits(0) == "0";
    ValueOfDigits(0);
    SplitText("-", "0", "", "-0");
  }

  lemma {:induction false} PlainKeepsNonZero(d: Decimal)
    requires d.coefficient > 0
    ensures Plain(d).coefficient > 0
    decreases d.coefficient
  {
    if d.exponent > 0 {
      ProductPositive(d.coefficient, Pow10(d.exponent));
    } else if d.exponent < 0 && d.coefficient % 10 == 0 {
      PlainKeepsNonZero(Decimal(d.negative, d.coefficient / 10, d.exponent + 1));
    }
  }

  // ---- Round trip ----

  lemma {:induction false} PointAfterDigits(whole: string, rest: string)
    requires AllDigits(whole)
    ensures PointAt(whole + "." + rest) == |whole|
    ensures PointAt(whole) == |whole|
  {
    if whole != "" {
      PointAfterDigits(whole[1..], rest);
      assert (whole + "." + rest)[1..] == whole[1..] + "." + rest;
    }
  }

  /** Positional text put together from its parts. */
  function Join(sign: string, whole: string, fraction: string): string
  {
    sign + (if fraction == "" then whole else whole + "." + fraction)
  }

  lemma SplitText(sign: string, whole: string, fraction: string, text: string)
    requires sign == "" || sign == "-"
    requires whole != "" && AllDigits(whole) && AllDigits(fraction)
    requires text == Join(sign, whole, fraction)
    ensures ParsePlain(text) == Some(Decimal(sign == "-", ValueOf(whole + fraction), -|fraction|))
  {
    PartsOfJoin(sign, whole, fraction);
    ParseParts(text, whole, fraction);
  }

  lemma PartsOfJoin(sign: string, whole: string, fraction: string)
    requires sign == "" || sign == "-"
    requires whole != "" && AllDigits(whole)
    ensures Whole(Join(sign, whole, fraction)) == whole && Fraction(Join(sign, whole, fraction)) == fraction
    ensures Join(sign, whole, fraction) != "" && (Join(sign, whole, fraction)[0] == '-' <==> sign == "-")
  {
    var body := if fraction == "" then whole else whole + "." + fraction;
    assert body[0] == whole[0];
    BodyOfSigned(sign, body);
    BodySplit(whole, fraction);
  }

  lemma ParseParts(text: string, whole: string, fraction: string)
    requires text != "" && Whole(text) == whole && Fraction(text) == fraction
    requires whole != "" && AllDigits(whole) && AllDigits(fraction)
    ensures ParsePlain(text) == Some(Decimal(text[0] == '-', ValueOf(whole + fraction), -|fraction|))
  {
  }

  lemma BodyOfSigned(sign: string, body: string)
    requires (sign == "" || sign == "-") && body != "" && IsDigit(body[0])
    ensures Body(sign + body) == body
    ensures (sign + body)[0] == '-' <==> sign == "-"
  {
    var text := sign + body;
    if sign == "-" {
      assert text[0] == '-' && text != "";
      assert text[1..] == body;
    } else {
      assert sign == "" && text == body;
      assert text[0] == body[0] && body[0] != '-' && body[0] != '+';
    }
  }

  lemma BodySplit(whole: string, fraction: string)
    requires whole != "" && AllDigits(whole)
    ensures var body := if fraction == "" then whole else whole + "." + fraction;
            && body[..PointAt(body)] == whole
            && (PointAt(body) < |body| <==> fraction != "")
            && (fraction != "" ==> body[PointAt(body) + 1..] == fraction)
  {
    PointAfterDigits(whole, fraction);
  }

  lemma FormatIsJoin(d: Decimal)
    requires d.exponent <= 0
    ensures var padded := Padded(d.coefficient, -d.exponent);
            var point := |padded| + d.exponent;
            && point > 0
            && FormatPlain(d) == Join(Sign(d), padded[..point], padded[point..])
            && (d.exponent == 0 ==> padded == Digits(d.coefficient))
  {
    var padded := Padded(d.coefficient, -d.exponent);
    var point := |padded| + d.exponent;
    if d.exponent == 0 {
      assert padded == Zeros(0) + Digits(d.coefficient) == Digits(d.coefficient);
      assert padded[..point] == padded && padded[point..] == "";
      assert FormatPlain(d) == Sign(d) + Digits(d.coefficient) + Zeros(0) == Sign(d) + Digits(d.coefficient);
    } else {
      assert padded[point..] != "";
      assert Sign(d) + padded[..point] + "." + padded[point..] == Sign(d) + (padded[..point] + "." + padded[point..]);
    }
  }

  lemma ParseDigitsWithPoint(d: Decimal, padded: string, point: nat)
    requires AllDigits(padded) && 0 < point <= |padded| && point == |padded| + d.exponent
    requires ValueOf(padded) == d.coefficient
    ensures ParsePlain(Join(Sign(d), padded[..point], padded[point..])) == Some(d)
  {
    assert padded[..point] + padded[point..] == padded;
    SplitText(Sign(d), padded[..point], padded[point..], Join(Sign(d), padded[..point], padded[point..]));
  }

  /** Parsing positional text gives back the decimal it was printed from. */
  lemma ParseFormat(d: Decimal)
    requires d.exponent <= 0
    ensures ParsePlain(FormatPlain(d)) == Some(d)
  {
    var padded := Padded(d.coefficient, -d.exponent);
    PaddedFacts(d.coefficient, -d.exponent);
    FormatIsJoin(d);
    ParseDigitsWithPoint(d, padded, |padded| + d.exponent);
  }

  /** For every finite decimal: its text parses, to the same number, and printing that parse again
      reproduces the text. */
  lemma RoundTrip(d: Decimal)
    ensures ParseCanonical(CanonicalText(d)) == Some(Plain(d))
    ensures SameNumber(d, Plain(d))
    ensures CanonicalText(Plain(d)) == CanonicalText(d)
  {
    PlainIsPlain(d);
    PlainSameNumber(d);
    CanonicalTextIsPlain(d);
    ParseFormat(Plain(d));
    CanonicalTextIsPlain(Plain(d));
    PlainOfPlain(d);
  }

  lemma PlainOfPlain(d: Decimal)
    ensures Plain(Plain(d)) == Plain(d)
  {
    PlainIsPlain(d);
  }

  /** Text equality is numeric equality. */
  lemma SameTextExactlyWhenSameNumber(a: Decimal, b: Decimal)
    ensures CanonicalText(a) == CanonicalText(b) <==> SameNumber(a, b)
  {
    RoundTrip(a);
    RoundTrip(b);
    SamePlainExactlyWhenSameNumber(a, b);
  }

  // ---- The shape of canonical text ----

  function SignOf(text: string): string { if text != "" && text[0] == '-' then "-" else "" }

  function Unsigned(text: string): string { text[|SignOf(text)|..] }

  /** Sign only before a non-zero number, no leading zero, no point without a fraction, no trailing
      fraction zero; nothing but digits otherwise, so no exponent. */
  predicate CanonicalShape(text: string)
  {
    var body := Unsigned(text);
    var at := PointAt(body);
    && (at < |body| ==> ProperFraction(body[at + 1..]))
    && ProperWhole(body[..at])
    && text != "-0"
  }

  predicate ProperWhole(whole: string)
  {
    whole != "" && AllDigits(whole) && (|whole| > 1 ==> whole[0] != '0')
  }

  predicate ProperFraction(fraction: string)
  {
    fraction != "" && AllDigits(fraction) && fraction[|fraction| - 1] != '0'
  }

  /** The accepted texts are exactly those of canonical shape. */
  lemma AcceptedExactlyWhenCanonicalShape(text: string)
    ensures ParseCanonical(text).Some? <==> CanonicalShape(text)
  {
    if ParseCanonical(text).Some? {
      var d := ParsePlain(text).value;
      CanonicalTextIsPlain(d);
      PlainIsPlain(d);
      PlainTextHasShape(Plain(d));
    }
    if CanonicalShape(text) {
      ShapeIsAccepted(text);
    }
  }

  lemma {:induction false} NoLeadingZero(n: nat)
    ensures |Digits(n)| > 1 ==> Digits(n)[0] != '0'
    ensures n > 0 ==> Digits(n)[0] != '0'
  {
    if n >= 10 {
      NoLeadingZero(n / 10);
    }
  }

  lemma JoinHasShape(sign: string, whole: string, fraction: string)
    requires sign == "" || sign == "-"
    requires ProperWhole(whole) && (fraction != "" ==> ProperFraction(fraction))
    requires Join(sign, whole, fraction) != "-0"
    ensures CanonicalShape(Join(sign, whole, fraction))
  {
    var body := if fraction == "" then whole else whole + "." + fraction;
    var text := Join(sign, whole, fraction);
    assert body[0] == whole[0];
    BodyOfSigned(sign, body);
    assert SignOf(text) == sign && Unsigned(text) == body;
    BodySplit(whole, fraction);
  }

  lemma ShapeIsJoin(text: string) returns (whole: string, fraction: string)
    requires CanonicalShape(text)
    ensures ProperWhole(whole) && (fraction != "" ==> ProperFraction(fraction))
    ensures text == Join(SignOf(text), whole, fraction)
  {
    var body := Unsigned(text);
    var at := PointAt(body);
    whole := body[..at];
    fraction := if at < |body| then body[at + 1..] else "";
    BodyIsItsParts(body, whole, fraction);
    assert text == SignOf(text) + body;
  }

  lemma BodyIsItsParts(body: string, whole: string, fraction: string)
    requires whole == body[..PointAt(body)]
    requires PointAt(body) < |body| ==> fraction == body[PointAt(body) + 1..] && fraction != ""
    requires PointAt(body) == |body| ==> fraction == ""
    ensures body == if fraction == "" then whole else whole + "." + fraction
  {
    if PointAt(body) < |body| {
      CutAround(body, PointAt(body));
    } else {
      assert body[..|body|] == body;
    }
  }

  lemma CutAround(text: string, at: nat)
    requires at < |text|
    ensures text == text[..at] + [text[at]] + text[at + 1..]
  {
  }

  lemma PlainTextHasShape(p: Decimal)
    requires IsPlain(p)
    ensures CanonicalShape(FormatPlain(p))
  {
    var padded := Padded(p.coefficient, -p.exponent);
    FormatIsJoin(p);
    NotMinusZero(p);
    PaddedWhole(p.coefficient, -p.exponent);
    PaddedFraction(p, padded);
    JoinHasShape(Sign(p), padded[..|padded| + p.exponent], padded[|padded| + p.exponent..]);
  }

  lemma NotMinusZero(p: Decimal)
    requires IsPlain(p)
    ensures FormatPlain(p) != "-0"
  {
    ParseFormat(p);
    MinusZeroParses();
  }

  lemma PaddedFraction(p: Decimal, padded: string)
    requires IsPlain(p) && padded == Padded(p.coefficient, -p.exponent)
    ensures p.exponent < 0 ==> ProperFraction(padded[|padded| + p.exponent..])
  {
    PaddedFacts(p.coefficient, -p.exponent);
    if p.exponent < 0 {
      var fraction := padded[|padded| + p.exponent..];
      assert fraction[|fraction| - 1] == padded[|padded| - 1];
    }
  }

  lemma PaddedWhole(coefficient: nat, places: nat)
    ensures var padded := Padded(coefficient, places);
            ProperWhole(padded[..|padded| - places])
  {
    var padded := Padded(coefficient, places);
    var whole := padded[..|padded| - places];
    PaddedFacts(coefficient, places);
    NoLeadingZero(coefficient);
    if |whole| > 1 {
      assert padded == Digits(coefficient);
    }
  }

  lemma ShapeIsAccepted(text: string)
    requires CanonicalShape(text)
    ensures ParseCanonical(text).Some?
  {
    var whole, fraction := ShapeIsJoin(text);
    var d := Decimal(SignOf(text) == "-", ValueOf(whole + fraction), -|fraction|);
    assert Join("-", "0", "") == "-0";
    PartsPrintBack(SignOf(text), whole, fraction, d);
    AcceptedWhenPrintedBack(text, d);
  }

  lemma AcceptedWhenPrintedBack(text: string, d: Decimal)
    requires ParsePlain(text) == Some(d) && CanonicalText(d) == text
    ensures ParseCanonical(text) == Some(d)
  {
  }

  lemma PartsPrintBack(sign: string, whole: string, fraction: string, d: Decimal)
    requires sign == "" || sign == "-"
    requires ProperWhole(whole) && (fraction != "" ==> ProperFraction(fraction))
    requires !(sign == "-" && whole == "0" && fraction == "")
    requires d == Decimal(sign == "-", ValueOf(whole + fraction), -|fraction|)
    ensures ParsePlain(Join(sign, whole, fraction)) == Some(d) && CanonicalText(d) == Join(sign, whole, fraction)
  {
    SplitText(sign, whole, fraction, Join(sign, whole, fraction));
    ShapeIsPlain(whole, fraction, d);
    CanonicalTextIsPlain(d);
    FormatRestores(whole, fraction, d);
    assert Sign(d) == sign;
  }

  /** A text of canonical shape spells a normal form, unless it is "-0". */
  lemma ShapeIsPlain(whole: string, fraction: string, d: Decimal)
    requires ProperWhole(whole) && (fraction != "" ==> ProperFraction(fraction))
    requires d.coefficient == ValueOf(whole + fraction) && d.exponent == -|fraction|
    requires !(d.negative && whole == "0" && fraction == "")
    ensures IsPlain(d) && Plain(d) == d
  {
    var digits := whole + fraction;
    PaddingRestores(digits);
    if fraction != "" {
      LastDigitOf(d.coefficient);
      assert digits[|digits| - 1] == fraction[|fraction| - 1];
    } else if d.coefficient == 0 {
      assert digits == whole && Digits(0) == "0";
      assert digits == Zeros(|digits| - 1) + "0";
      ZerosAre(|digits| - 1);
      assert digits[0] == '0';
    }
  }

  lemma FormatRestores(whole: string, fraction: string, d: Decimal)
    requires ProperWhole(whole) && AllDigits(fraction)
    requires d.coefficient == ValueOf(whole + fraction) && d.exponent == -|fraction|
    ensures FormatPlain(d) == Join(Sign(d), whole, fraction)
  {
    var digits := whole + fraction;
    PaddingRestores(digits);
    PaddedFromDigits(digits, |fraction|);
    FormatIsJoin(d);
    assert digits[..|whole|] == whole && digits[|whole|..] == fraction;
  }

  lemma PaddedFromDigits(digits: string, places: nat)
    requires AllDigits(digits) && |digits| > places
    requires |digits| > places + 1 ==> digits[0] != '0'
    ensures Padded(ValueOf(digits), places) == digits
  {
    PaddingRestores(digits);
    PaddedToLength(digits, ValueOf(digits), places);
  }

  lemma PaddedToLength(digits: string, coefficient: nat, places: nat)
    requires |digits| > places && (|digits| > places + 1 ==> digits[0] != '0')
    requires |Digits(coefficient)| <= |digits|
    requires digits == Zeros(|digits| - |Digits(coefficient)|) + Digits(coefficient)
    ensures Padded(coefficient, places) == digits
  {
    var text := Digits(coefficient);
    LeadingZeroCount(digits, text);
    PaddedIs(coefficient, places, text, |digits| - |text|);
  }

  lemma PaddedIs(coefficient: nat, places: nat, text: string, zeros: nat)
    requires text == Digits(coefficient) && zeros == Max(0, places + 1 - |text|)
    ensures Padded(coefficient, places) == Zeros(zeros) + text
  {
  }

  lemma LeadingZeroCount(digits: string, text: string)
    requires |digits| >= |text| && digits == Zeros(|digits| - |text|) + text
    ensures |digits| > |text| ==> digits[0] == '0'
  {
    var zeros := Zeros(|digits| - |text|);
    ZerosAre(|digits| - |text|);
    assert zeros != "" ==> digits[0] == zeros[0];
  }
}
