/**
 Money and quantity strings. An amount is a whole number of units in the last place: cents for two
 places, thousandths for three; everything is proved for any number of places.
 */
module Money {
  import opened Seqs

  datatype Error = Invalid | TooLarge

  /** The two types in use: `9999999999.99` and `99999999999.999` are the greatest values. */
  const MONEY_PLACES: nat := 2
  const MONEY_MAX: nat := 999_999_999_999
  const QUANTITY_PLACES: nat := 3
  const QUANTITY_MAX: nat := 99_999_999_999_999

  function Pow10(k: nat): (r: nat)
    ensures r >= 1
  {
    if k == 0 then 1 else 10 * Pow10(k - 1)
  }

  // ---------------------------------------------------------------- digits

  predicate IsDigit(c: char) { '0' <= c <= '9' }

  function DigitValue(c: char): (n: nat)
    requires IsDigit(c)
    ensures n <= 9
  {
    (c as int) - ('0' as int)
  }

  function Digit(n: nat): (c: char)
    requires n <= 9
    ensures IsDigit(c) && DigitValue(c) == n
  {
    (n + ('0' as int)) as char
  }

  predicate Digits(s: string) { forall i :: 0 <= i < |s| ==> IsDigit(s[i]) }

  function Value(s: string): nat
    requires Digits(s)
  {
    if s == [] then 0 else 10 * Value(s[..|s| - 1]) + DigitValue(s[|s| - 1])
  }

  /** The digits of `n`, without leading zeros. */
  function Natural(n: nat): (s: string)
    ensures s != [] && Digits(s)
  {
    if n < 10 then [Digit(n)] else Natural(n / 10) + [Digit(n % 10)]
  }

  /** The last `w` digits of `n`. */
  function Fixed(n: nat, w: nat): (s: string)
    ensures |s| == w && Digits(s)
  {
    if w == 0 then [] else Fixed(n / 10, w - 1) + [Digit(n % 10)]
  }

  /** `n` without its last `w` digits. */
  function Front(n: nat, w: nat): nat { if w == 0 then n else Front(n / 10, w - 1) }

  // ---------------------------------------------------------------- printing and parsing

  /** A quantized amount, as `str` writes it. */
  function Print(units: nat, places: nat): string { Natural(Front(units, places)) + "." + Fixed(units, places) }

  /** `0|[1-9][0-9]*` */
  predicate IsWhole(s: string) { s != [] && Digits(s) && (s[0] == '0' ==> |s| == 1) }

  /** `[0-9]{1,places}` */
  predicate IsFraction(s: string, places: nat) { 1 <= |s| <= places && Digits(s) }

  /** Where the point is; the length when there is none. */
  function Point(s: string): (i: nat)
    ensures i <= |s|
    ensures i < |s| ==> s[i] == '.'
    ensures forall k :: 0 <= k < i ==> s[k] != '.'
  {
    if s == [] || s[0] == '.' then 0 else 1 + Point(s[1..])
  }

  function Amount(whole: string, fraction: string, places: nat): nat
    requires Digits(whole) && Digits(fraction) && |fraction| <= places
  {
    Value(whole) * Pow10(places) + Value(fraction) * Pow10(places - |fraction|)
  }

  function Checked(units: nat, maximum: nat): Result<nat, Error> {
    if units > maximum then Err(TooLarge) else Ok(units)
  }

  function Parse(s: string, places: nat, maximum: nat): Result<nat, Error> {
    var i := Point(s);
    if i == |s| then
      if IsWhole(s) then Checked(Amount(s, [], places), maximum) else Err(Invalid)
    else if IsWhole(s[..i]) && IsFraction(s[i + 1..], places) then Checked(Amount(s[..i], s[i + 1..], places), maximum)
    else Err(Invalid)
  }

  /** The pattern as a grammar: a whole part, alone or with a point and a fraction. */
  ghost predicate Pattern(s: string, whole: string, fraction: string, places: nat) {
    IsWhole(whole) && ((fraction == [] && s == whole) || (IsFraction(fraction, places) && s == whole + "." + fraction))
  }

  /** A string is accepted exactly when it matches the pattern and its amount is within the maximum. */
  lemma ParseAcceptsThePattern(s: string, places: nat, maximum: nat)
    ensures Parse(s, places, maximum).Ok?
       <==> exists whole, fraction :: Pattern(s, whole, fraction, places) && Amount(whole, fraction, places) <= maximum
  {
    if Parse(s, places, maximum).Ok? {
      var i := Point(s);
      if i == |s| {
        assert Pattern(s, s, [], places);
      } else {
        assert s == s[..i] + "." + s[i + 1..];
        assert Pattern(s, s[..i], s[i + 1..], places);
      }
    }
    forall whole, fraction | Pattern(s, whole, fraction, places) && Amount(whole, fraction, places) <= maximum
      ensures Parse(s, places, maximum).Ok?
    {
      ParsePattern(s, whole, fraction, places, maximum);
    }
  }

  /** Why a string is refused: it does not match, or it does and its amount is above the maximum. */
  lemma ParseRefusals(s: string, places: nat, maximum: nat)
    ensures Parse(s, places, maximum) == Err(Invalid) <==>
      !exists whole, fraction :: Pattern(s, whole, fraction, places)
    ensures Parse(s, places, maximum) == Err(TooLarge) <==>
      exists whole, fraction :: Pattern(s, whole, fraction, places) && Amount(whole, fraction, places) > maximum
  {
    hide Amount;
    var i := Point(s);
    if Parse(s, places, maximum) != Err(Invalid) {
      if i < |s| { assert s == s[..i] + "." + s[i + 1..]; }
      assert Pattern(s, s[..i], if i < |s| then s[i + 1..] else [], places);
    }
    forall whole, fraction | Pattern(s, whole, fraction, places)
      ensures Parse(s, places, maximum) == Checked(Amount(whole, fraction, places), maximum)
    {
      ParsePattern(s, whole, fraction, places, maximum);
    }
  }

  lemma {:induction false} ValueAppend(s: string, t: string)
    requires Digits(s) && Digits(t)
    ensures Digits(s + t) && Value(s + t) == Value(s) * Pow10(|t|) + Value(t)
  {
    if t == [] {
      assert s + t == s;
    } else {
      var n := |t| - 1;
      ValueAppend(s, t[..n]);
      assert s + t == (s + t[..n]) + [t[n]];
      ValueSnoc(s + t[..n], t[n]);
      Scale(Value(s), Pow10(n));
    }
  }

  /** The amount is the number that all the digits spell, the point moved `places` to the right. */
  lemma AmountIsPositional(whole: string, fraction: string, places: nat)
    requires Digits(whole) && Digits(fraction) && |fraction| <= places
    ensures Amount(whole, fraction, places) * Pow10(|fraction|) == Value(whole + fraction) * Pow10(places)
  {
    hide Value, Pow10;
    var f, rest := |fraction|, places - |fraction|;
    ValueAppend(whole, fraction);
    Pow10Sum(f, rest);
    Spread(Value(whole), Value(fraction), Pow10(f), Pow10(rest));
  }

  lemma Spread(w: nat, f: nat, x: nat, y: nat)
    ensures (w * (x * y) + f * y) * x == (w * x + f) * (x * y)
  {
    assert (w * (x * y) + f * y) * x == w * (x * y) * x + f * y * x;
    assert (w * x + f) * (x * y) == w * x * (x * y) + f * (x * y);
  }

  /** What is printed spells the amount: exactly `places` digits after the point, no needless zero before it. */
  lemma PrintSpellsTheAmount(units: nat, places: nat) returns (whole: string, fraction: string)
    ensures Print(units, places) == whole + "." + fraction && IsWhole(whole) && Digits(fraction)
    ensures |fraction| == places && Value(whole + fraction) == units
  {
    hide Value, Natural, Fixed, Front, IsWhole;
    whole, fraction := Natural(Front(units, places)), Fixed(units, places);
    NaturalIs(Front(units, places));
    FixedIs(units, places);
    WholeIsDigits(whole);
    ValueAppend(whole, fraction);
  }

  lemma NoPoint(s: string)
    requires Digits(s)
    ensures Point(s) == |s|
  {
  }

  lemma PointAfter(whole: string, rest: string)
    requires Digits(whole)
    ensures Point(whole + "." + rest) == |whole|
  {
    var s := whole + "." + rest;
    assert s[|whole|] == '.';
    assert forall k :: 0 <= k < |whole| ==> s[k] == whole[k] && IsDigit(whole[k]);
  }

  lemma ParsePattern(s: string, whole: string, fraction: string, places: nat, maximum: nat)
    requires Pattern(s, whole, fraction, places)
    ensures Parse(s, places, maximum) == Checked(Amount(whole, fraction, places), maximum)
  {
    if fraction == [] && s == whole {
      NoPoint(s);
    } else {
      PointAfter(whole, fraction);
      assert s[..|whole|] == whole && s[|whole| + 1..] == fraction;
    }
  }

  // ---------------------------------------------------------------- round trips

  lemma ValueSnoc(s: string, c: char)
    requires Digits(s) && IsDigit(c)
    ensures Digits(s + [c]) && Value(s + [c]) == 10 * Value(s) + DigitValue(c)
  {
  }

  lemma {:induction false} NaturalIs(n: nat)
    ensures Value(Natural(n)) == n && IsWhole(Natural(n)) && (Natural(n)[0] == '0' ==> n == 0)
  {
    if n < 10 {
      ValueSnoc([], Digit(n));
      assert [] + [Digit(n)] == [Digit(n)];
      assert DigitValue('0') == 0;
    } else {
      NaturalIs(n / 10);
      ValueSnoc(Natural(n / 10), Digit(n % 10));
    }
  }

  lemma {:induction false} FixedIs(n: nat, w: nat)
    ensures Front(n, w) * Pow10(w) + Value(Fixed(n, w)) == n
  {
    if w > 0 {
      FixedIs(n / 10, w - 1);
      ValueSnoc(Fixed(n / 10, w - 1), Digit(n % 10));
      Scale(Front(n / 10, w - 1), Pow10(w - 1));
    }
  }

  lemma Scale(a: nat, b: nat)
    ensures a * (10 * b) == 10 * (a * b)
  {
  }

  /** Every amount within the maximum is printed as a string that parses back to it. */
  lemma PrintedParsesBack(units: nat, places: nat, maximum: nat)
    requires places >= 1 && units <= maximum
    ensures Parse(Print(units, places), places, maximum) == Ok(units)
  {
    hide Natural, Fixed, Front, Value, Parse, IsWhole;
    var whole, fraction := Natural(Front(units, places)), Fixed(units, places);
    NaturalIs(Front(units, places));
    FixedIs(units, places);
    assert Pow10(places - |fraction|) == 1;
    ParsePattern(Print(units, places), whole, fraction, places, maximum);
  }

  /** So for the two types, over their whole ranges. */
  lemma MoneyAndQuantityRoundTrip(cents: nat, mils: nat)
    requires cents <= MONEY_MAX && mils <= QUANTITY_MAX
    ensures Parse(Print(cents, MONEY_PLACES), MONEY_PLACES, MONEY_MAX) == Ok(cents)
    ensures Parse(Print(mils, QUANTITY_PLACES), QUANTITY_PLACES, QUANTITY_MAX) == Ok(mils)
  {
    hide Parse, Print;
    PrintedParsesBack(cents, MONEY_PLACES, MONEY_MAX);
    PrintedParsesBack(mils, QUANTITY_PLACES, QUANTITY_MAX);
  }

  /** Different amounts print differently. */
  lemma PrintIsInjective(x: nat, y: nat, places: nat)
    requires places >= 1 && Print(x, places) == Print(y, places)
    ensures x == y
  {
    PrintedParsesBack(x, places, x + y);
    PrintedParsesBack(y, places, x + y);
  }

  function Zeros(n: nat): (s: string)
    ensures |s| == n && Digits(s)
  {
    if n == 0 then [] else Zeros(n - 1) + "0"
  }

  lemma {:induction false} NaturalOf(s: string)
    requires IsWhole(s)
    ensures Natural(Value(s)) == s
  {
    var n := |s| - 1;
    var rest := s[..n];
    assert s == rest + [s[n]] && Digit(DigitValue(s[n])) == s[n];
    if n > 0 {
      assert IsWhole(rest);
      NaturalOf(rest);
      LeadingDigit(rest);
    }
  }

  lemma {:induction false} LeadingDigit(s: string)
    requires IsWhole(s) && s[0] != '0'
    ensures Value(s) >= 1
  {
    if |s| > 1 { LeadingDigit(s[..|s| - 1]); } else { assert s[..0] == []; }
  }

  lemma NoPlaces(n: nat)
    ensures Fixed(n, 0) == [] && Front(n, 0) == n
  {
  }

  lemma LastDigit(m: nat, d: nat)
    requires d <= 9
    ensures (10 * m + d) / 10 == m && (10 * m + d) % 10 == d
  {
  }

  lemma NextPlace(m: nat, d: nat, w: nat)
    requires d <= 9
    ensures Fixed(10 * m + d, w + 1) == Fixed(m, w) + [Digit(d)] && Front(10 * m + d, w + 1) == Front(m, w)
  {
    hide Digit, Pow10, Value, Natural;
    LastDigit(m, d);
  }

  /** Digits appended to a number are its last digits, and the number is what is before them. */
  lemma {:induction false} FixedOf(n: nat, s: string)
    requires Digits(s)
    ensures Fixed(n * Pow10(|s|) + Value(s), |s|) == s && Front(n * Pow10(|s|) + Value(s), |s|) == n
  {
    hide Fixed, Front;
    if s == [] {
      NoPlaces(n);
    } else {
      var k := |s| - 1;
      FixedOf(n, s[..k]);
      Scale(n, Pow10(k));
      var m := n * Pow10(k) + Value(s[..k]);
      assert n * Pow10(|s|) + Value(s) == 10 * m + DigitValue(s[k]);
      NextPlace(m, DigitValue(s[k]), k);
      assert Digit(DigitValue(s[k])) == s[k];
      assert s == s[..k] + [s[k]];
    }
  }

  lemma {:induction false} ValuePadded(s: string, k: nat)
    requires Digits(s)
    ensures Digits(s + Zeros(k)) && Value(s + Zeros(k)) == Value(s) * Pow10(k)
  {
    if k == 0 {
      assert s + Zeros(0) == s;
    } else {
      ValuePadded(s, k - 1);
      assert s + Zeros(k) == (s + Zeros(k - 1)) + ['0'];
      ValueSnoc(s + Zeros(k - 1), '0');
      Scale(Value(s), Pow10(k - 1));
    }
  }

  /** What was typed, with the point and the zeros that were left out. */
  function Canonical(s: string, places: nat): string {
    var i := Point(s);
    if i == |s| then s + "." + Zeros(places)
    else if |s| - i - 1 <= places then s + Zeros(places - (|s| - i - 1)) else s
  }

  lemma WholePrints(s: string, places: nat)
    requires IsWhole(s)
    ensures Print(Amount(s, [], places), places) == s + "." + Zeros(places)
  {
    hide Pow10, Zeros, Natural, Fixed, Front, Value, IsWhole;
    NoDigits();
    ValuePadded([], places);
    assert [] + Zeros(places) == Zeros(places);
    WholeIsDigits(s);
    NaturalOf(s);
    FixedOf(Value(s), Zeros(places));
  }

  lemma NoDigits()
    ensures Value([]) == 0
  {
  }

  lemma WholeIsDigits(s: string)
    requires IsWhole(s)
    ensures Digits(s)
  {
  }

  lemma FractionPrints(whole: string, fraction: string, places: nat)
    requires IsWhole(whole) && IsFraction(fraction, places)
    ensures Print(Amount(whole, fraction, places), places) == whole + "." + (fraction + Zeros(places - |fraction|))
  {
    hide Pow10, Zeros, Natural, Fixed, Front, Value;
    ValuePadded(fraction, places - |fraction|);
    NaturalOf(whole);
    FixedOf(Value(whole), fraction + Zeros(places - |fraction|));
  }

  /** Printing an accepted string gives the string itself, padded to its places: no digit is lost or changed. */
  lemma PrintedIsCanonical(s: string, places: nat, maximum: nat)
    requires Parse(s, places, maximum).Ok?
    ensures Print(Parse(s, places, maximum).value, places) == Canonical(s, places)
  {
    hide Print, Amount;
    var i := Point(s);
    if i == |s| {
      WholePrints(s, places);
    } else {
      FractionPrints(s[..i], s[i + 1..], places);
      assert s[..i] + "." + (s[i + 1..] + Zeros(places - |s[i + 1..]|)) == s + Zeros(places - |s[i + 1..]|);
    }
  }

  /** Canonical strings are accepted with the same amount, and printing them again changes nothing. */
  lemma CanonicalIsStable(s: string, places: nat, maximum: nat)
    requires places >= 1 && Parse(s, places, maximum).Ok?
    ensures Parse(Canonical(s, places), places, maximum) == Parse(s, places, maximum)
    ensures Canonical(Canonical(s, places), places) == Canonical(s, places)
  {
    PrintedIsCanonical(s, places, maximum);
    var units := Parse(s, places, maximum).value;
    PrintedParsesBack(units, places, maximum);
    PrintedIsCanonical(Print(units, places), places, maximum);
  }

  // ---------------------------------------------------------------- rounding

  function Abs(x: int): nat { if x < 0 then -x else x }

  /** `c / d` to the nearest whole number, ties away from zero. */
  function HalfUp(c: int, d: nat): int
    requires d >= 1
  {
    var m := if 2 * (Abs(c) % d) >= d then Abs(c) / d + 1 else Abs(c) / d;
    if c < 0 then -m else m
  }

  /** A finite decimal: `coefficient * 10^exponent`. */
  datatype Decimal = Decimal(coefficient: int, exponent: int)

  /** In units of the last of `places` places. */
  function Quantize(x: Decimal, places: nat): int {
    var shift := x.exponent + places;
    if shift >= 0 then x.coefficient * Pow10(shift) else HalfUp(x.coefficient, Pow10(-shift))
  }

  lemma DivMod(a: nat, d: nat)
    requires d >= 1
    ensures a == (a / d) * d + a % d && a % d < d
  {
  }

  lemma Times(m: int, d: int)
    ensures (2 * m + 1) * d == 2 * (m * d) + d && (2 * m - 1) * d == 2 * (m * d) - d && (m + 1) * d == m * d + d
    ensures (-m) * d == -(m * d)
  {
  }

  /** Off by at most half a unit; a tie goes away from zero; the sign plays no part. */
  lemma HalfUpIsNearest(c: int, d: nat)
    requires d >= 1
    ensures 2 * Abs(HalfUp(c, d) * d - c) <= d
    ensures 2 * Abs(HalfUp(c, d) * d - c) == d ==> Abs(HalfUp(c, d) * d) > Abs(c)
    ensures HalfUp(-c, d) == -HalfUp(c, d)
  {
    var m := Abs(c) / d;
    DivMod(Abs(c), d);
    Times(m, d);
    Times(m + 1, d);
  }

  lemma HalfUpBounds(c: nat, d: nat)
    requires d >= 1
    ensures (2 * HalfUp(c, d) - 1) * d <= 2 * c < (2 * HalfUp(c, d) + 1) * d
  {
  }

  lemma Mul(a: int, b: int, c: nat)
    requires a <= b
    ensures a * c <= b * c
  {
  }

  lemma MulLess(a: int, b: int, c: nat)
    requires a < b && c >= 1
    ensures a * c < b * c
  {
  }

  lemma HalfUpGrows(a: nat, d: nat, b: nat, e: nat)
    requires d >= 1 && e >= 1 && a * e <= b * d
    ensures HalfUp(a, d) <= HalfUp(b, e)
  {
    var m, n := HalfUp(a, d), HalfUp(b, e);
    HalfUpBounds(a, d);
    HalfUpBounds(b, e);
    if m > n {
      MulLess(2 * b, (2 * n + 1) * e, d);
      Mul(2 * n + 1, 2 * m - 1, e);
      Mul((2 * n + 1) * e, (2 * m - 1) * e, d);
      Mul((2 * m - 1) * d, 2 * a, e);
      Swap(2 * m - 1, d, e);
      Twice(a, e);
      Twice(b, d);
    }
  }

  lemma Swap(x: int, d: int, e: int)
    ensures (x * d) * e == (x * e) * d
  {
  }

  lemma Twice(x: int, y: int)
    ensures (2 * x) * y == 2 * (x * y)
  {
  }

  lemma HalfUpSign(c: int, d: nat)
    requires d >= 1
    ensures c >= 0 ==> HalfUp(c, d) >= 0
    ensures c <= 0 ==> HalfUp(c, d) <= 0
  {
  }

  /** Rounding never reverses an order: `a/d <= b/e` rounds to no greater a number. */
  lemma HalfUpIsMonotone(a: int, d: nat, b: int, e: nat)
    requires d >= 1 && e >= 1 && a * e <= b * d
    ensures HalfUp(a, d) <= HalfUp(b, e)
  {
    hide HalfUp;
    HalfUpSign(a, d);
    HalfUpSign(b, e);
    if a >= 0 {
      NonNegative(a, b, d, e);
      HalfUpGrows(a, d, b, e);
    } else if b < 0 {
      HalfUpIsNearest(a, d);
      HalfUpIsNearest(b, e);
      Negated(a, e);
      Negated(b, d);
      HalfUpGrows(-b, e, -a, d);
    }
  }

  lemma NonNegative(a: nat, b: int, d: nat, e: nat)
    requires d >= 1 && a * e <= b * d
    ensures b >= 0
  {
  }

  lemma Negated(a: int, e: int)
    ensures (-a) * e == -(a * e)
  {
  }

  lemma {:induction false} Pow10Sum(a: nat, b: nat)
    ensures Pow10(a) * Pow10(b) == Pow10(a + b)
  {
    if a > 0 { Pow10Sum(a - 1, b); }
  }

  /** `x <= y`, both written over one common power of ten. */
  predicate AtMost(x: Decimal, y: Decimal) {
    var low := Min(x.exponent, y.exponent);
    x.coefficient * Pow10(x.exponent - low) <= y.coefficient * Pow10(y.exponent - low)
  }

  function Numerator(x: Decimal, places: nat): int { x.coefficient * Pow10(Max(x.exponent + places, 0)) }

  function Denominator(x: Decimal, places: nat): (d: nat)
    ensures d >= 1
  {
    Pow10(Max(-(x.exponent + places), 0))
  }

  lemma QuantizeRounds(x: Decimal, places: nat)
    ensures Quantize(x, places) == HalfUp(Numerator(x, places), Denominator(x, places))
  {
  }

  /** Off by at most half a unit in the last place, and by nothing when the value has no more places. */
  lemma QuantizeIsNearest(x: Decimal, places: nat)
    ensures 2 * Abs(Quantize(x, places) * Denominator(x, places) - Numerator(x, places)) <= Denominator(x, places)
    ensures x.exponent + places >= 0 ==> Quantize(x, places) == Numerator(x, places)
  {
    hide HalfUp, Abs;
    QuantizeRounds(x, places);
    HalfUpIsNearest(Numerator(x, places), Denominator(x, places));
  }

  lemma Rescaled(c: int, k: nat, n: nat)
    ensures (c * Pow10(k)) * Pow10(n) == c * Pow10(k + n)
  {
    Pow10Sum(k, n);
    Associate(c, Pow10(k), Pow10(n));
  }

  lemma Associate(x: int, y: int, z: int)
    ensures (x * y) * z == x * (y * z)
  {
  }

  /** Quantizing is monotone, whatever the two exponents. */
  lemma QuantizeIsMonotone(x: Decimal, y: Decimal, places: nat)
    requires AtMost(x, y)
    ensures Quantize(x, places) <= Quantize(y, places)
  {
    hide Pow10, HalfUp, Quantize;
    var low := Min(x.exponent, y.exponent);
    QuantizeRounds(x, places);
    QuantizeRounds(y, places);
    CrossMultiplied(x, y, places, low);
    HalfUpIsMonotone(Numerator(x, places), Denominator(x, places), Numerator(y, places), Denominator(y, places));
  }

  lemma CrossMultiplied(x: Decimal, y: Decimal, places: nat, low: int)
    requires low == Min(x.exponent, y.exponent) && AtMost(x, y)
    ensures Numerator(x, places) * Denominator(y, places) <= Numerator(y, places) * Denominator(x, places)
  {
    hide Pow10;
    var ux, dx := Max(x.exponent + places, 0), Max(-(x.exponent + places), 0);
    var uy, dy := Max(y.exponent + places, 0), Max(-(y.exponent + places), 0);
    var k := ux + dy - (x.exponent - low);
    Rescaled(x.coefficient, ux, dy);
    Rescaled(y.coefficient, uy, dx);
    Rescaled(x.coefficient, x.exponent - low, k);
    Rescaled(y.coefficient, y.exponent - low, k);
    Mul(x.coefficient * Pow10(x.exponent - low), y.coefficient * Pow10(y.exponent - low), Pow10(k));
  }

  /** A decimal that the server itself passes in is taken as it is, or refused; it is never rounded. */
  function ParseDecimal(x: Option<Decimal>, places: nat, maximum: nat): Result<nat, Error> {
    if x == None || x.value.coefficient < 0 || -x.value.exponent > places then Err(Invalid)
    else Checked(Max(x.value.coefficient, 0) * Pow10(x.value.exponent + places), maximum)
  }

  /** What is accepted is printed exactly: the serializer's quantizing has nothing left to round. */
  lemma AcceptedIsNotRounded(x: Decimal, places: nat, maximum: nat)
    requires places >= 1 && ParseDecimal(Some(x), places, maximum).Ok?
    ensures Quantize(x, places) == ParseDecimal(Some(x), places, maximum).value
    ensures Parse(Print(ParseDecimal(Some(x), places, maximum).value, places), places, maximum)
         == ParseDecimal(Some(x), places, maximum)
  {
    PrintedParsesBack(ParseDecimal(Some(x), places, maximum).value, places, maximum);
  }
}
