/** Prices: people type and read roubles, everything else counts kopecks. The only arithmetic on
    binary fractions in the system happens here. */
module Price {
  import opened Common
  import opened Decimal
  import opened Strings

  /** The correctly rounded result of an operation whose exact result is `x`: a relative error of at
      most 2^-53 (section 4.3 of IEEE 754-2019), far from overflow and underflow. */
  type Rounding = real -> real

  const EPSILON := 1.0 / 9_007_199_254_740_992.0

  const HUGE := 1_000_000_000_000_000_000.0

  ghost predicate Correct(fl: Rounding) {
    forall x :: 0.001 <= x <= HUGE ==> x - x * EPSILON <= fl(x) <= x + x * EPSILON
  }

  /** Rounding does not look at the sign. */
  ghost predicate Symmetric(fl: Rounding) {
    forall x :: fl(-x) == -fl(x)
  }

  /** To the nearest whole number, halves to the even one. */
  function RoundHalfEven(x: real): int {
    var n := x.Floor;
    var rest := x - n as real;
    if rest < 0.5 || (rest == 0.5 && n % 2 == 0) then n else n + 1
  }

  /** It is the nearest one, and the even one where two are equally near. */
  lemma RoundsToNearest(x: real)
    ensures var n := RoundHalfEven(x);
      n as real - 0.5 <= x <= n as real + 0.5 && (x == n as real - 0.5 || x == n as real + 0.5 ==> n % 2 == 0)
  {
    assert x.Floor as real <= x < x.Floor as real + 1.0;
  }

  // ---- reading

  datatype Parsed = Finite(x: real) | Infinite | NotANumber | Malformed

  function Pow10(n: nat): (p: nat)
    ensures p > 0
  {
    if n == 0 then 1 else 10 * Pow10(n - 1)
  }

  /** Digits with at most one point among or around them: the exact value. */
  function ReadPlain(s: string): Option<real> {
    var k := Find(s, '.');
    var whole, part := s[..k], if k < |s| then s[k + 1..] else "";
    if AllDigits(whole) && AllDigits(part) && whole + part != "" then
      Some(Number(whole) as real + Number(part) as real / Pow10(|part|) as real)
    else None
  }

  /** `library` reads whatever else the standard library takes for a number, and numbers too large for it. */
  function ReadFloat(s: string, fl: Rounding, library: string -> Parsed): Parsed {
    var exact := ReadPlain(s);
    if exact.Some? && exact.value <= HUGE then Finite(if exact.value == 0.0 then 0.0 else fl(exact.value)) else library(s)
  }

  function WithPoints(s: string): (r: string)
    ensures |r| == |s|
  {
    seq(|s|, i requires 0 <= i < |s| => if s[i] == ',' then '.' else s[i])
  }

  /** `Uncaught`: an infinite number cannot be rounded, and nobody expects that. */
  datatype PriceError = NotNumber | NotPositive | Uncaught

  function PriceToMinor(roubles: string, fl: Rounding, library: string -> Parsed): Result<int, PriceError> {
    match ReadFloat(WithPoints(roubles), fl, library)
    case Malformed => Err(NotNumber)
    case NotANumber => Err(NotNumber)
    case Infinite => Err(Uncaught)
    case Finite(x) =>
      var product := x * 100.0;
      var amount := RoundHalfEven(if product == 0.0 then 0.0 else fl(product));
      if amount <= 0 then Err(NotPositive) else Ok(amount)
  }

  // ---- printing

  /** A number of hundredths with exactly two digits behind the point. */
  function Hundredths(n: nat): string {
    Digits(n / 100) + "." + [Digit(n / 10 % 10), Digit(n % 10)]
  }

  /** The division is rounded; the notation with two decimals is exact for the result of it. */
  function PriceToRoubles(minor: int, fl: Rounding): string {
    if minor == 0 then Hundredths(0)
    else
      var x := fl(minor as real / 100.0);
      if x < 0.0 then "-" + Hundredths(Magnitude(RoundHalfEven(-x * 100.0))) else Hundredths(Magnitude(RoundHalfEven(x * 100.0)))
  }

  function Magnitude(n: int): nat {
    if n < 0 then 0 else n
  }

  // ---- reading back

  lemma RoundsTo(x: real, m: int)
    requires m as real - 0.5 < x < m as real + 0.5
    ensures RoundHalfEven(x) == m
  {
    assert x.Floor == m || x.Floor == m - 1;
  }

  lemma NumberOfTwo(a: nat, b: nat)
    requires a < 10 && b < 10
    ensures Number([Digit(a), Digit(b)]) == 10 * a + b
  {
    var s := [Digit(a), Digit(b)];
    assert s[..1] == [Digit(a)] && s[..1][..0] == "";
    assert Number(s[..1]) == Number("") * 10 + a;
  }

  lemma NoPoint(s: string)
    requires AllDigits(s)
    ensures '.' !in s && ',' !in s
  {
    forall i | 0 <= i < |s| ensures s[i] != '.' && s[i] != ',' {
      assert IsDigit(s[i]);
    }
  }

  lemma ReadsHundredths(n: nat)
    ensures ReadPlain(Hundredths(n)) == Some(n as real / 100.0)
  {
    var whole, part := Digits(n / 100), [Digit(n / 10 % 10), Digit(n % 10)];
    NumberOfDigits(n / 100);
    NumberOfTwo(n / 10 % 10, n % 10);
    NoPoint(whole);
    assert Hundredths(n) == whole + ['.'] + part;
    FindsFirst(whole, '.', part);
    assert Hundredths(n)[..|whole|] == whole && Hundredths(n)[|whole| + 1..] == part;
    assert Pow10(2) == 10 * Pow10(1) && Pow10(1) == 10 * Pow10(0);
    Assemble(n / 100, 10 * (n / 10 % 10) + n % 10, n);
  }

  lemma Assemble(whole: nat, part: nat, n: nat)
    requires n == 100 * whole + part
    ensures whole as real + part as real / 100.0 == n as real / 100.0
  {
    assert n as real == 100.0 * whole as real + part as real;
  }

  /** The same notation with a comma. */
  function WithComma(n: nat): string {
    Digits(n / 100) + "," + [Digit(n / 10 % 10), Digit(n % 10)]
  }

  lemma CommaIsAPoint(n: nat)
    ensures WithPoints(WithComma(n)) == Hundredths(n) && WithPoints(Hundredths(n)) == Hundredths(n)
  {
    var whole := Digits(n / 100);
    forall i | 0 <= i < |whole| ensures whole[i] != ',' {
      assert IsDigit(whole[i]);
    }
  }

  const LIMIT := 1_000_000_000_000_000

  /** Two roundings of a sum of up to 10^13 roubles cannot reach half a kopeck. */
  lemma TwoRoundings(m: int, fl: Rounding)
    requires Correct(fl) && 1 <= m <= LIMIT
    ensures RoundHalfEven(fl(fl(m as real / 100.0) * 100.0)) == m
    ensures fl(m as real / 100.0) * 100.0 > 0.0
  {
    var exact := m as real / 100.0;
    var x := fl(exact);
    assert exact - exact * EPSILON <= x <= exact + exact * EPSILON;
    var product := x * 100.0;
    assert m as real - m as real * EPSILON <= product <= m as real + m as real * EPSILON;
    assert m as real * EPSILON <= 0.12;
    assert product - product * EPSILON <= fl(product) <= product + product * EPSILON;
    assert product * EPSILON <= 0.13;
    RoundsTo(fl(product), m);
  }

  /** A text that stands for exactly `m` hundredths is read as `m` kopecks. */
  lemma ExactTextIsExact(s: string, m: int, fl: Rounding, library: string -> Parsed)
    requires Correct(fl) && 1 <= m <= LIMIT && ReadPlain(WithPoints(s)) == Some(m as real / 100.0)
    ensures PriceToMinor(s, fl, library) == Ok(m)
  {
    var exact := m as real / 100.0;
    assert 0.0 < exact <= HUGE;
    assert ReadFloat(WithPoints(s), fl, library) == Finite(fl(exact));
    ReadingIsCharged(s, exact, m, fl, library) by {
      TwoRoundings(m, fl);
    }
  }

  lemma ReadingIsCharged(s: string, exact: real, m: int, fl: Rounding, library: string -> Parsed)
    requires ReadFloat(WithPoints(s), fl, library) == Finite(fl(exact))
    requires fl(exact) * 100.0 > 0.0 && RoundHalfEven(fl(fl(exact) * 100.0)) == m && m >= 1
    ensures PriceToMinor(s, fl, library) == Ok(m)
  {
  }

  /** What a person types with two decimals is what is charged, to the kopeck, with a point or a comma. */
  lemma TypedPriceIsExact(m: int, fl: Rounding, library: string -> Parsed)
    requires Correct(fl) && 1 <= m <= LIMIT
    ensures PriceToMinor(Hundredths(m), fl, library) == Ok(m)
    ensures PriceToMinor(WithComma(m), fl, library) == Ok(m)
  {
    CommaIsAPoint(m);
    ReadsHundredths(m);
    ExactTextIsExact(Hundredths(m), m, fl, library);
    ExactTextIsExact(WithComma(m), m, fl, library);
  }

  /** What the page shows is the exact sum, although a rounded quotient is printed. */
  lemma ShownPriceIsExact(m: int, fl: Rounding)
    requires Correct(fl) && -LIMIT <= m <= LIMIT && (m < 0 ==> Symmetric(fl))
    ensures PriceToRoubles(m, fl) == if m < 0 then "-" + Hundredths(-m) else Hundredths(m)
  {
    if m > 0 {
      PositiveIsExact(m, fl);
    } else if m < 0 {
      PositiveIsExact(-m, fl);
      assert m as real / 100.0 == -((-m) as real / 100.0);
    }
  }

  lemma PositiveIsExact(m: int, fl: Rounding)
    requires Correct(fl) && 1 <= m <= LIMIT
    ensures fl(m as real / 100.0) > 0.0 && RoundHalfEven(fl(m as real / 100.0) * 100.0) == m
  {
    var exact := m as real / 100.0;
    var x := fl(exact);
    assert exact - exact * EPSILON <= x <= exact + exact * EPSILON;
    assert m as real - m as real * EPSILON <= x * 100.0 <= m as real + m as real * EPSILON;
    assert m as real * EPSILON <= 0.12;
    RoundsTo(x * 100.0, m);
  }

  lemma PriceRoundTrip(m: int, fl: Rounding, library: string -> Parsed)
    requires Correct(fl) && 1 <= m <= LIMIT
    ensures PriceToMinor(PriceToRoubles(m, fl), fl, library) == Ok(m)
  {
    ShownPriceIsExact(m, fl);
    TypedPriceIsExact(m, fl, library);
  }

  /** What cannot be a price is never charged: only a positive whole number of kopecks comes out, and
      which complaint is made depends on what the text is. */
  lemma OnlyPositivePrices(roubles: string, fl: Rounding, library: string -> Parsed)
    ensures var read, price := ReadFloat(WithPoints(roubles), fl, library), PriceToMinor(roubles, fl, library);
      && (price.Ok? ==> price.value >= 1 && read.Finite?)
      && (price == Err(NotNumber) <==> read in {Malformed, NotANumber})
      && (price == Err(Uncaught) <==> read == Infinite)
      && (price == Err(NotPositive) <==> read.Finite? && RoundHalfEven(if read.x == 0.0 then 0.0 else fl(read.x * 100.0)) < 1)
  {
  }

  /** 1250 kopecks are twelve roubles and a half. */
  lemma HowPricesLook(fl: Rounding)
    requires Correct(fl)
    ensures PriceToRoubles(1250, fl) == "12.50" && PriceToRoubles(5, fl) == "0.05"
  {
    ShownPriceIsExact(1250, fl);
    ShownPriceIsExact(5, fl);
    HowHundredthsLook();
  }

  lemma HowHundredthsLook()
    ensures Hundredths(1250) == "12.50" && Hundredths(5) == "0.05"
  {
    assert Digits(12) == Digits(1) + [Digit(2)];
  }
}
