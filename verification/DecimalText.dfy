/**
The canonical decimal text of app/crypto_outcomes.py, the form in which every number enters an
evidence fingerprint. A number is printed without an exponent, loses the zeros that end its
fraction, and zero has one text. The text names the value: equal values have equal texts, different
values have different texts, and reading a text gives the value back.
*/
module DecimalText {
  import opened Wrappers

  /** A decimal as the decimal module keeps it: coefficient times ten to the exponent, or no number. */
  datatype Decimal =
    | Finite(negative: bool, coefficient: nat, exponent: int)
    | Infinity(negative: bool)
    | NaN

  datatype TextError = NotFinite

  // ----- values -----

  function Pow10(e: int): (p: real)
    ensures p > 0.0
    decreases if e >= 0 then e else -e
  {
    if e == 0 then 1.0 else if e > 0 then 10.0 * Pow10(e - 1) else Pow10(e + 1) / 10.0
  }

  /** c as real * p, written as a sum so that equal factors stay visible in the proofs. */
  function Times(c: nat, p: real): real {
    if c == 0 then 0.0 else Times(c - 1, p) + p
  }

  lemma {:induction false} TimesIsProduct(c: nat, p: real)
    ensures Times(c, p) == c as real * p
  {
    if c > 0 {
      TimesIsProduct(c - 1, p);
      assert c as real * p == (c - 1) as real * p + p;
    }
  }

  function Magnitude(c: nat, e: int): real {
    Times(c, Pow10(e))
  }

  function Value(d: Decimal): real
    requires d.Finite?
  {
    if d.negative then -Magnitude(d.coefficient, d.exponent) else Magnitude(d.coefficient, d.exponent)
  }

  lemma MagnitudeShifts(c: nat, e: int)
    ensures Magnitude(10 * c, e - 1) == Magnitude(c, e)
  {
    assert Pow10(e) == 10.0 * Pow10(e - 1);
    TimesTen(c, Pow10(e - 1));
  }

  lemma TimesTen(c: nat, p: real)
    ensures Times(10 * c, p) == Times(c, 10.0 * p)
  {
    TimesIsProduct(10 * c, p);
    TimesIsProduct(c, 10.0 * p);
    assert (10 * c) as real == 10.0 * c as real;
  }

  lemma TimesGrows(c: nat, d: nat, p: real)
    requires p > 0.0 && c < d
    ensures Times(c, p) < Times(d, p)
  {
    TimesIsProduct(c, p);
    TimesIsProduct(d, p);
    assert (d as real - c as real) * p > 0.0;
  }

  lemma TimesOrder(c: nat, d: nat, p: real)
    requires p > 0.0 && Times(c, p) == Times(d, p)
    ensures c == d
  {
    if c < d {
      TimesGrows(c, d, p);
    } else if d < c {
      TimesGrows(d, c, p);
    }
  }

  lemma MagnitudeSign(c: nat, e: int)
    ensures Magnitude(c, e) >= 0.0 && (Magnitude(c, e) == 0.0 <==> c == 0)
  {
    if c > 0 {
      TimesGrows(0, c, Pow10(e));
    }
  }

  // ----- printing -----

  function Digit(n: nat): char
    requires n < 10
  {
    '0' + n as char
  }

  /** The digits of a coefficient, without leading zeros. */
  function Digits(n: nat): (s: string)
    ensures s != ""
  {
    if n < 10 then [Digit(n)] else Digits(n / 10) + [Digit(n % 10)]
  }

  function Zeros(n: nat): (s: string)
    ensures |s| == n
  {
    if n == 0 then "" else Zeros(n - 1) + "0"
  }

  function RStrip(s: string, c: char): string {
    if s != "" && s[|s| - 1] == c then RStrip(s[..|s| - 1], c) else s
  }

  function Start(negative: bool, whole: string): string {
    if negative then "-" + whole else whole
  }

  function Tail(fraction: string): string {
    if fraction == "" then "" else "." + fraction
  }

  function Render(negative: bool, whole: string, fraction: string): string {
    Start(negative, whole) + Tail(fraction)
  }

  /** The digits before the decimal point of a fixed-point rendering. */
  function Whole(c: nat, e: int): string {
    var digits := Digits(c);
    var point := |digits| + e;
    if point <= 0 then "0" else if point > |digits| then digits + Zeros(e) else digits[..point]
  }

  /** The digits after it. */
  function Fraction(c: nat, e: int): string {
    var digits := Digits(c);
    var point := |digits| + e;
    if point <= 0 then Zeros(-point) + digits else if point > |digits| then "" else digits[point..]
  }

  /** format(value, "f") */
  function FixedPoint(d: Decimal): string
    requires d.Finite?
  {
    Render(d.negative, Whole(d.coefficient, d.exponent), Fraction(d.coefficient, d.exponent))
  }

  function CanonicalText(d: Decimal): Result<string, TextError> {
    if !d.Finite? then Err(NotFinite)
    else if d.coefficient == 0 then Ok("0")
    else
      var text := FixedPoint(d);
      Ok(if '.' in text then RStrip(RStrip(text, '0'), '.') else text)
  }

  // ----- reading -----

  predicate IsDigit(c: char) {
    '0' <= c <= '9'
  }

  predicate AllDigits(s: string) {
    forall i :: 0 <= i < |s| ==> IsDigit(s[i])
  }

  function Number(s: string): nat
    requires AllDigits(s)
  {
    if s == "" then 0 else 10 * Number(s[..|s| - 1]) + (s[|s| - 1] - '0') as nat
  }

  /** Where the decimal point stands, or the length of the text. */
  function PointIn(s: string): (k: nat)
    ensures k <= |s| && (k < |s| ==> s[k] == '.') && '.' !in s[..k]
  {
    if s == "" || s[0] == '.' then 0 else 1 + PointIn(s[1..])
  }

  function ParseUnsigned(body: string): Option<(nat, int)> {
    var point := PointIn(body);
    var whole := body[..point];
    var fraction := if point < |body| then body[point + 1..] else "";
    if whole == "" || !AllDigits(whole) || !AllDigits(fraction) || (point < |body| && fraction == "") then None
    else Some((Number(whole + fraction), -|fraction|))
  }

  /** The plain numerals that the decimal constructor reads: digits, and perhaps a point and more digits. */
  function Parse(text: string): Option<Decimal> {
    var negative := text != "" && text[0] == '-';
    match ParseUnsigned(if negative then text[1..] else text)
    case None => None
    case Some(number) => Some(Finite(negative, number.0, number.1))
  }

  lemma ParseSplits(negative: bool, body: string, number: (nat, int))
    requires body != "" && body[0] != '-' && ParseUnsigned(body) == Some(number)
    ensures Parse(if negative then "-" + body else body) == Some(Finite(negative, number.0, number.1))
  {
    assert ("-" + body)[1..] == body;
  }

  lemma {:induction false} PointInBody(whole: string, fraction: string)
    requires AllDigits(whole)
    ensures PointIn(whole + Tail(fraction)) == |whole|
  {
    var body := whole + Tail(fraction);
    if whole == "" {
      assert body == Tail(fraction);
    } else {
      assert body[1..] == whole[1..] + Tail(fraction);
      PointInBody(whole[1..], fraction);
    }
  }

  lemma ParseBody(whole: string, fraction: string)
    requires whole != "" && AllDigits(whole) && AllDigits(fraction)
    ensures AllDigits(whole + fraction)
    ensures ParseUnsigned(whole + Tail(fraction)) == Some((Number(whole + fraction), -|fraction|))
  {
    PointInBody(whole, fraction);
    BodyParts(whole, fraction);
  }

  lemma BodyParts(whole: string, fraction: string)
    ensures var body := whole + Tail(fraction);
      body[..|whole|] == whole && (if fraction == "" then |body| == |whole| else |body| > |whole| && body[|whole| + 1..] == fraction)
  {
  }

  lemma ParseRendered(negative: bool, whole: string, fraction: string)
    requires whole != "" && AllDigits(whole) && AllDigits(fraction)
    ensures AllDigits(whole + fraction)
    ensures Parse(Render(negative, whole, fraction)) == Some(Finite(negative, Number(whole + fraction), -|fraction|))
  {
    ParseBody(whole, fraction);
    ParseSigned(negative, whole, fraction, Number(whole + fraction), -|fraction|);
  }

  lemma ParseSigned(negative: bool, whole: string, fraction: string, number: nat, exponent: int)
    requires whole != "" && IsDigit(whole[0]) && ParseUnsigned(whole + Tail(fraction)) == Some((number, exponent))
    ensures Parse(Render(negative, whole, fraction)) == Some(Finite(negative, number, exponent))
  {
    RenderSplits(negative, whole, fraction);
    ParseText(Render(negative, whole, fraction), negative, whole + Tail(fraction), number, exponent);
  }

  lemma ParseText(text: string, negative: bool, body: string, number: nat, exponent: int)
    requires IsSigned(text, negative, body) && ParseUnsigned(body) == Some((number, exponent))
    ensures Parse(text) == Some(Finite(negative, number, exponent))
  {
    ParseSplits(negative, body, (number, exponent));
  }

  /** The text is the body, which begins with a digit, with the sign that it needs. */
  predicate IsSigned(text: string, negative: bool, body: string) {
    body != "" && IsDigit(body[0]) && text == if negative then "-" + body else body
  }

  lemma RenderSplits(negative: bool, whole: string, fraction: string)
    requires whole != "" && IsDigit(whole[0])
    ensures IsSigned(Render(negative, whole, fraction), negative, whole + Tail(fraction))
  {
    var body := whole + Tail(fraction);
    assert body[0] == whole[0];
    assert ("-" + whole) + Tail(fraction) == "-" + (whole + Tail(fraction));
  }

  // ----- digits -----

  lemma {:induction false} DigitsAreDigits(n: nat)
    ensures AllDigits(Digits(n)) && Number(Digits(n)) == n
  {
    if n >= 10 {
      DigitsAreDigits(n / 10);
      var s := Digits(n);
      assert s[..|s| - 1] == Digits(n / 10);
    } else {
      assert Digits(n)[..0] == "";
    }
  }

  lemma {:induction false} ZerosAreDigits(n: nat)
    ensures AllDigits(Zeros(n))
  {
    if n > 0 {
      ZerosAreDigits(n - 1);
    }
  }

  lemma NumberOfOneMore(s: string, c: char)
    requires AllDigits(s) && IsDigit(c)
    ensures AllDigits(s + [c]) && Number(s + [c]) == 10 * Number(s) + (c - '0') as nat
  {
    assert (s + [c])[..|s|] == s;
  }

  lemma {:induction false} LeadingZerosDoNotCount(n: nat, s: string)
    requires AllDigits(s)
    ensures AllDigits(Zeros(n) + s) && Number(Zeros(n) + s) == Number(s)
  {
    ZerosAreDigits(n);
    if s == "" {
      assert Zeros(n) + s == Zeros(n);
      ZerosAreNothing(n);
    } else {
      LeadingZerosDoNotCount(n, s[..|s| - 1]);
      assert (Zeros(n) + s) == (Zeros(n) + s[..|s| - 1]) + [s[|s| - 1]];
      NumberOfOneMore(Zeros(n) + s[..|s| - 1], s[|s| - 1]);
    }
  }

  lemma {:induction false} ZerosAreNothing(n: nat)
    ensures AllDigits(Zeros(n)) && Number(Zeros(n)) == 0
  {
    if n > 0 {
      ZerosAreNothing(n - 1);
      NumberOfOneMore(Zeros(n - 1), '0');
    }
  }

  /** Zeros behind a numeral multiply it by a power of ten. */
  lemma {:induction false} TrailingZerosScale(s: string, n: nat, e: int)
    requires AllDigits(s)
    ensures AllDigits(s + Zeros(n)) && Magnitude(Number(s + Zeros(n)), e - n) == Magnitude(Number(s), e)
  {
    if n == 0 {
      assert s + Zeros(n) == s;
    } else {
      TrailingZerosScale(s, n - 1, e);
      ZerosAppend(s, n - 1);
      OneMoreZero(s + Zeros(n - 1), s + Zeros(n), e - (n - 1), e - n, Magnitude(Number(s), e));
    }
  }

  lemma ZerosAppend(s: string, n: nat)
    ensures s + Zeros(n + 1) == (s + Zeros(n)) + "0"
  {
  }

  lemma OneMoreZero(s: string, longer: string, e: int, below: int, value: real)
    requires AllDigits(s) && longer == s + "0" && below == e - 1 && Magnitude(Number(s), e) == value
    ensures AllDigits(longer) && Magnitude(Number(longer), below) == value
  {
    NumberOfOneMore(s, '0');
    MagnitudeShifts(Number(s), e);
  }

  // ----- the text of a value -----

  lemma RenderedDigits(c: nat, e: int)
    ensures Whole(c, e) != "" && AllDigits(Whole(c, e)) && AllDigits(Fraction(c, e))
  {
    var digits := Digits(c);
    DigitsAreDigits(c);
    if |digits| + e <= 0 {
      LeadingZerosDoNotCount(-(|digits| + e), digits);
    } else if e > 0 {
      ZerosAreDigits(e);
    }
  }

  /** The fixed-point rendering has the value of the decimal. */
  lemma FixedPointKeepsValue(c: nat, e: int)
    ensures AllDigits(Whole(c, e) + Fraction(c, e))
    ensures Magnitude(Number(Whole(c, e) + Fraction(c, e)), -|Fraction(c, e)|) == Magnitude(c, e)
  {
    RenderedDigits(c, e);
    var digits, whole, fraction := Digits(c), Whole(c, e), Fraction(c, e);
    DigitsAreDigits(c);
    if |digits| + e <= 0 {
      LeadingZerosDoNotCount(-(|digits| + e), digits);
      LeadingZerosDoNotCount(1, fraction);
      assert Zeros(1) == "0";
      assert Number(fraction) == c;
    } else if e > 0 {
      assert whole + fraction == digits + Zeros(e);
      TrailingZerosScale(digits, e, e);
    } else {
      assert whole + fraction == digits;
    }
  }

  lemma {:induction false} StrippedDigits(s: string)
    requires AllDigits(s)
    ensures AllDigits(RStrip(s, '0')) && (RStrip(s, '0') != "" ==> RStrip(s, '0')[|RStrip(s, '0')| - 1] != '0')
  {
    if s != "" && s[|s| - 1] == '0' {
      StrippedDigits(s[..|s| - 1]);
    }
  }

  /** Zeros at the end of the fraction do not count. */
  lemma {:induction false} StrippingKeepsValue(whole: string, fraction: string)
    requires AllDigits(whole) && AllDigits(fraction)
    ensures AllDigits(RStrip(fraction, '0')) && AllDigits(whole + RStrip(fraction, '0')) && AllDigits(whole + fraction)
    ensures Magnitude(Number(whole + RStrip(fraction, '0')), -|RStrip(fraction, '0')|)
         == Magnitude(Number(whole + fraction), -|fraction|)
  {
    StrippedDigits(fraction);
    if fraction != "" && fraction[|fraction| - 1] == '0' {
      var front := fraction[..|fraction| - 1];
      StrippingKeepsValue(whole, front);
      assert whole + fraction == (whole + front) + "0";
      OneMoreZero(whole + front, whole + fraction, -|front|, -|fraction|, Magnitude(Number(whole + front), -|front|));
    }
  }

  /** Stripping the text strips the fraction, and the point with it when nothing is left. */
  lemma {:induction false} StrippedText(start: string, fraction: string)
    requires start != "" && IsDigit(start[|start| - 1]) && AllDigits(fraction)
    ensures RStrip(RStrip(start + "." + fraction, '0'), '.')
         == start + Tail(RStrip(fraction, '0'))
  {
    var text := start + "." + fraction;
    if fraction == "" {
      RStripOfParts(start, ".", '0');
      RStripOfParts(start, ".", '.');
      assert text == start + "." && start + "" == start;
    } else {
      RStripOfParts(start + ".", fraction, '0');
      if fraction[|fraction| - 1] == '0' {
        StrippedText(start, fraction[..|fraction| - 1]);
      } else {
        RStripOfParts(start + ".", fraction, '.');
        assert text == start + ("." + fraction);
      }
    }
  }

  lemma RStripOfParts(s: string, t: string, c: char)
    requires t != ""
    ensures RStrip(s + t, c) == if t[|t| - 1] == c then RStrip(s + t[..|t| - 1], c) else s + t
  {
    assert (s + t)[..|s + t| - 1] == s + t[..|t| - 1];
  }

  lemma CanonicalTextIsRendered(d: Decimal)
    requires d.Finite? && d.coefficient != 0
    ensures CanonicalText(d) == Ok(Render(d.negative, Whole(d.coefficient, d.exponent), RStrip(Fraction(d.coefficient, d.exponent), '0')))
  {
    RenderedDigits(d.coefficient, d.exponent);
    StrippedRendering(d.negative, Whole(d.coefficient, d.exponent), Fraction(d.coefficient, d.exponent));
  }

  lemma StrippedRendering(negative: bool, whole: string, fraction: string)
    requires whole != "" && AllDigits(whole) && AllDigits(fraction)
    ensures var text := Render(negative, whole, fraction);
      (if '.' in text then RStrip(RStrip(text, '0'), '.') else text) == Render(negative, whole, RStrip(fraction, '0'))
  {
    var start := Start(negative, whole);
    if fraction == "" {
      assert start + Tail(fraction) == start && '.' !in start;
    } else {
      assert (start + Tail(fraction))[|start|] == '.';
      assert start + Tail(fraction) == start + "." + fraction;
      StrippedText(start, fraction);
    }
  }

  lemma ZeroIsRead()
    ensures Parse("0") == Some(Finite(false, 0, 0))
  {
    ParseRendered(false, "0", "");
    ZerosAreNothing(1);
    assert Zeros(1) == "0" && Render(false, "0", "") == "0" && "0" + "" == "0";
  }

  lemma StrippedRenderingKeepsValue(c: nat, e: int, whole: string, stripped: string)
    requires whole == Whole(c, e) && stripped == RStrip(Fraction(c, e), '0')
    ensures whole != "" && AllDigits(whole) && AllDigits(stripped) && AllDigits(whole + stripped)
    ensures Magnitude(Number(whole + stripped), -|stripped|) == Magnitude(c, e)
  {
    RenderedDigits(c, e);
    StrippingKeepsValue(whole, Fraction(c, e));
    FixedPointKeepsValue(c, e);
  }

  lemma RenderedReadsBack(d: Decimal, whole: string, stripped: string)
    requires d.Finite? && whole != "" && AllDigits(whole) && AllDigits(stripped) && AllDigits(whole + stripped)
    requires Magnitude(Number(whole + stripped), -|stripped|) == Magnitude(d.coefficient, d.exponent)
    ensures var read := Parse(Render(d.negative, whole, stripped));
      read.Some? && read.value.Finite? && Value(read.value) == Value(d)
  {
    ParseRendered(d.negative, whole, stripped);
    ReadsBackAs(d, Render(d.negative, whole, stripped), Number(whole + stripped), -|stripped|);
  }

  lemma ReadsBackAs(d: Decimal, text: string, coefficient: nat, exponent: int)
    requires d.Finite? && Parse(text) == Some(Finite(d.negative, coefficient, exponent))
    requires Magnitude(coefficient, exponent) == Magnitude(d.coefficient, d.exponent)
    ensures var read := Parse(text); read.Some? && read.value.Finite? && Value(read.value) == Value(d)
  {
    SameMagnitude(Finite(d.negative, coefficient, exponent), d);
  }

  lemma SameMagnitude(a: Decimal, b: Decimal)
    requires a.Finite? && b.Finite? && a.negative == b.negative
    requires Magnitude(a.coefficient, a.exponent) == Magnitude(b.coefficient, b.exponent)
    ensures Value(a) == Value(b)
  {
  }

  lemma NonzeroRoundTrip(d: Decimal)
    requires d.Finite? && d.coefficient != 0
    ensures CanonicalText(d).Ok?
    ensures var read := Parse(CanonicalText(d).value);
      read.Some? && read.value.Finite? && Value(read.value) == Value(d)
  {
    var whole, stripped := Whole(d.coefficient, d.exponent), RStrip(Fraction(d.coefficient, d.exponent), '0');
    CanonicalTextIsRendered(d);
    StrippedRenderingKeepsValue(d.coefficient, d.exponent, whole, stripped);
    RenderedReadsBack(d, whole, stripped);
  }

  /** Reading the canonical text gives the value back. */
  lemma RoundTrip(d: Decimal)
    requires d.Finite?
    ensures CanonicalText(d).Ok?
    ensures Parse(CanonicalText(d).value).Some? && Parse(CanonicalText(d).value).value.Finite?
    ensures Value(Parse(CanonicalText(d).value).value) == Value(d)
  {
    if d.coefficient == 0 {
      ZeroIsRead();
      MagnitudeSign(0, 0);
      MagnitudeSign(0, d.exponent);
    } else {
      NonzeroRoundTrip(d);
    }
  }

  // ----- one text for each value -----

  lemma ShiftKeepsWhole(c: nat, e: int)
    requires c != 0
    ensures Whole(10 * c, e - 1) == Whole(c, e)
  {
    var digits, longer := Digits(c), Digits(10 * c);
    assert longer == digits + "0";
    if e > 0 {
      ZerosInFront(e);
      assert longer + Zeros(e - 1) == digits + ("0" + Zeros(e - 1));
      assert longer[..|longer|] == longer;
    } else if |digits| + e > 0 {
      assert longer[..|digits| + e] == digits[..|digits| + e];
    }
  }

  lemma FractionGrows(c: nat, e: int)
    requires c != 0 && e <= 0
    ensures Fraction(10 * c, e - 1) == Fraction(c, e) + "0"
  {
    var digits, longer := Digits(c), Digits(10 * c);
    assert longer == digits + "0";
    var point := |digits| + e;
    if point > 0 {
      DropOfParts(digits, "0", point);
    } else {
      assert Zeros(-point) + (digits + "0") == (Zeros(-point) + digits) + "0";
    }
  }

  lemma DropOfParts(s: string, t: string, k: nat)
    requires k <= |s|
    ensures (s + t)[k..] == s[k..] + t
  {
  }

  lemma RStripOneMore(s: string, c: char)
    ensures RStrip(s + [c], c) == RStrip(s, c)
  {
    assert (s + [c])[..|s|] == s;
  }

  lemma ShiftKeepsFraction(c: nat, e: int)
    requires c != 0
    ensures RStrip(Fraction(10 * c, e - 1), '0') == RStrip(Fraction(c, e), '0')
  {
    if e <= 0 {
      FractionGrows(c, e);
      RStripOneMore(Fraction(c, e), '0');
    } else {
      assert Digits(10 * c) == Digits(c) + "0";
      assert Fraction(c, e) == "" && Fraction(10 * c, e - 1) == "";
    }
  }

  /** A zero moved from the exponent to the coefficient leaves the text alone. */
  lemma ShiftKeepsText(negative: bool, c: nat, e: int)
    requires c != 0
    ensures CanonicalText(Finite(negative, 10 * c, e - 1)) == CanonicalText(Finite(negative, c, e))
  {
    CanonicalTextIsRendered(Finite(negative, c, e));
    CanonicalTextIsRendered(Finite(negative, 10 * c, e - 1));
    ShiftKeepsWhole(c, e);
    ShiftKeepsFraction(c, e);
  }

  lemma {:induction false} ZerosInFront(n: nat)
    requires n > 0
    ensures Zeros(n) == "0" + Zeros(n - 1)
  {
    if n > 1 {
      ZerosInFront(n - 1);
    }
  }

  /** The coefficient without the zeros at its end. */
  function Normal(d: Decimal): (n: Decimal)
    requires d.Finite? && d.coefficient != 0
    ensures n.Finite? && n.negative == d.negative && n.coefficient % 10 != 0
    decreases d.coefficient
  {
    if d.coefficient % 10 != 0 then d else Normal(Finite(d.negative, d.coefficient / 10, d.exponent + 1))
  }

  lemma {:induction false} NormalKeepsTextAndValue(d: Decimal)
    requires d.Finite? && d.coefficient != 0
    ensures CanonicalText(Normal(d)) == CanonicalText(d) && Value(Normal(d)) == Value(d)
    decreases d.coefficient
  {
    if d.coefficient % 10 == 0 {
      var c, e := d.coefficient / 10, d.exponent + 1;
      NormalKeepsTextAndValue(Finite(d.negative, c, e));
      assert d == Finite(d.negative, 10 * c, e - 1);
      ShiftKeepsText(d.negative, c, e);
      MagnitudeShifts(c, e);
    }
  }

  /** The same value at a lower exponent needs a coefficient that ends in a zero. */
  lemma {:induction false} LowerExponentEndsInZero(c: nat, e: int, k: nat, b: nat)
    requires k > 0 && Magnitude(b, e - k) == Magnitude(c, e)
    ensures b % 10 == 0
    decreases k
  {
    MagnitudeShifts(c, e);
    if k == 1 {
      TimesOrder(b, 10 * c, Pow10(e - 1));
    } else {
      LowerExponentEndsInZero(10 * c, e - 1, k - 1, b);
    }
  }

  lemma NormalFormIsUnique(a: Decimal, b: Decimal)
    requires a.Finite? && b.Finite? && a.coefficient % 10 != 0 && b.coefficient % 10 != 0 && Value(a) == Value(b)
    ensures a == b
  {
    MagnitudeSign(a.coefficient, a.exponent);
    MagnitudeSign(b.coefficient, b.exponent);
    if a.exponent < b.exponent {
      LowerExponentEndsInZero(b.coefficient, b.exponent, b.exponent - a.exponent, a.coefficient);
    } else if b.exponent < a.exponent {
      LowerExponentEndsInZero(a.coefficient, a.exponent, a.exponent - b.exponent, b.coefficient);
    } else {
      TimesOrder(a.coefficient, b.coefficient, Pow10(a.exponent));
    }
  }

  /** The text names the value. */
  lemma SameTextIffSameValue(a: Decimal, b: Decimal)
    requires a.Finite? && b.Finite?
    ensures CanonicalText(a) == CanonicalText(b) <==> Value(a) == Value(b)
  {
    RoundTrip(a);
    RoundTrip(b);
    MagnitudeSign(a.coefficient, a.exponent);
    MagnitudeSign(b.coefficient, b.exponent);
    if Value(a) == Value(b) && a.coefficient != 0 {
      NormalKeepsTextAndValue(a);
      NormalKeepsTextAndValue(b);
      NormalFormIsUnique(Normal(a), Normal(b));
    }
  }

  /** A canonical text is its own canonical text. */
  lemma CanonicalTextIsIdempotent(d: Decimal)
    requires d.Finite?
    ensures CanonicalText(d).Ok? && Parse(CanonicalText(d).value).Some?
    ensures CanonicalText(Parse(CanonicalText(d).value).value) == CanonicalText(d)
  {
    RoundTrip(d);
    SameTextIffSameValue(Parse(CanonicalText(d).value).value, d);
  }

  // ----- the shape of a canonical text -----

  /** Digits, no zero in front of another digit, and no zero at the end of the fraction. */
  predicate Plain(whole: string, fraction: string) {
    && whole != "" && AllDigits(whole) && AllDigits(fraction)
    && (|whole| > 1 ==> whole[0] != '0')
    && (fraction != "" ==> fraction[|fraction| - 1] != '0')
  }

  lemma {:induction false} DigitsHaveNoLeadingZero(n: nat)
    requires n > 0
    ensures Digits(n)[0] != '0'
  {
    if n >= 10 {
      DigitsHaveNoLeadingZero(n / 10);
      assert Digits(n)[0] == Digits(n / 10)[0];
    }
  }

  lemma {:induction false} RStripLeavesNoZero(s: string)
    requires AllDigits(s)
    ensures AllDigits(RStrip(s, '0')) && (RStrip(s, '0') != "" ==> RStrip(s, '0')[|RStrip(s, '0')| - 1] != '0')
  {
    if s != "" && s[|s| - 1] == '0' {
      RStripLeavesNoZero(s[..|s| - 1]);
    }
  }

  lemma RenderInParts(negative: bool, whole: string, fraction: string)
    ensures Render(negative, whole, fraction) == (if negative then "-" else "") + whole + if fraction == "" then "" else "." + fraction
  {
    assert "" + whole == whole;
  }

  lemma WholeIsPlain(c: nat, e: int)
    requires c > 0
    ensures Whole(c, e) != "" && AllDigits(Whole(c, e)) && (|Whole(c, e)| > 1 ==> Whole(c, e)[0] != '0')
  {
    RenderedDigits(c, e);
    DigitsHaveNoLeadingZero(c);
  }

  lemma ValueSign(d: Decimal)
    requires d.Finite?
    ensures Value(d) < 0.0 <==> d.negative && d.coefficient != 0
  {
    MagnitudeSign(d.coefficient, d.exponent);
  }

  lemma StrippedIsPlain(c: nat, e: int, whole: string, fraction: string)
    requires c > 0 && whole == Whole(c, e) && fraction == RStrip(Fraction(c, e), '0')
    ensures Plain(whole, fraction)
  {
    WholeIsPlain(c, e);
    RenderedDigits(c, e);
    RStripLeavesNoZero(Fraction(c, e));
  }

  /** A canonical text is a plain numeral: a sign if and only if the value is negative, and no superfluous zero in front or behind. */
  lemma CanonicalTextIsPlain(d: Decimal) returns (whole: string, fraction: string)
    requires d.Finite?
    ensures Plain(whole, fraction)
    ensures CanonicalText(d) == Ok((if Value(d) < 0.0 then "-" else "") + whole + if fraction == "" then "" else "." + fraction)
  {
    ValueSign(d);
    if d.coefficient == 0 {
      whole, fraction := "0", "";
      assert "" + whole + "" == "0";
    } else {
      whole, fraction := Whole(d.coefficient, d.exponent), RStrip(Fraction(d.coefficient, d.exponent), '0');
      CanonicalTextIsRendered(d);
      StrippedIsPlain(d.coefficient, d.exponent, whole, fraction);
      RenderInParts(d.negative, whole, fraction);
    }
  }
}
