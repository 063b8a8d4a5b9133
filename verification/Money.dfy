/** Amounts in smallest units and their conversion at an FX rate, in 40-digit decimal arithmetic. */
module Money {

  datatype Currency = USD | EUR | GBP | NGN | JPY | AUD | CAD | CNY

  datatype Result<T> = Ok(value: T) | Err(error: Error)
  datatype Error =
    | Unparsable      // the rate text is no number at all
    | InvalidFxRate   // NaN, infinite, zero or negative
    | NotAnInteger    // printed in exponent notation, which the BigInt constructor refuses

  /** The number coef * 10^exp. */
  datatype Dec = Dec(coef: int, exp: int)

  /** What parsing the rate text gives. */
  datatype RateText = Garbage | NaN | Infinite | Finite(value: Dec)

  const ONE := Dec(1, 0)

  /** One more than the largest 40-digit coefficient: the arithmetic precision. */
  const PRECISION_BOUND: int := 1_00000_00000_00000_00000_00000_00000_00000_00000

  /** Numbers from here on are printed in exponent notation. */
  const EXPONENT_NOTATION: int := 1_000_000_000_000_000_000_000

  const AMOUNT_BOUND: int := EXPONENT_NOTATION     // above every amount that ToSmallestUnit returns
  const RATE_COEF_BOUND: int := 1_000_000_000_000_000_000  // 18 significant digits

  function Decimals(c: Currency): nat {
    if c == JPY then 0 else 2
  }

  function Abs(x: int): nat { if x < 0 then -x else x }

  function Pow10(n: nat): (p: int)
    ensures p >= 1
  {
    if n == 0 then 1 else 10 * Pow10(n - 1)
  }

  /** Nearest integer to n / d; a tie goes away from zero. */
  function HalfUp(n: int, d: int): int
    requires d > 0
  {
    if n >= 0 then (2 * n + d) / (2 * d) else -((2 * -n + d) / (2 * d))
  }

  /** How many digits a coefficient has beyond the precision. */
  function Excess(c: nat): nat {
    if c < PRECISION_BOUND then 0 else 1 + Excess(c / 10)
  }

  function RoundToPrecision(d: Dec): Dec {
    var k := Excess(Abs(d.coef));
    if k == 0 then d else Dec(HalfUp(d.coef, Pow10(k)), d.exp + k)
  }

  function Mul(a: Dec, b: Dec): Dec {
    RoundToPrecision(Dec(a.coef * b.coef, a.exp + b.exp))
  }

  /** Rounding to zero decimal places. */
  function ToInteger(d: Dec): int {
    if d.exp >= 0 then d.coef * Pow10(d.exp) else HalfUp(d.coef, Pow10(-d.exp))
  }

  function ParseBigInt(i: int): Result<int> {
    if Abs(i) < EXPONENT_NOTATION then Ok(i) else Err(NotAnInteger)
  }

  function ToSmallestUnit(amount: Dec, c: Currency): Result<int> {
    ParseBigInt(ToInteger(Mul(amount, Dec(1, Decimals(c)))))
  }

  function FromSmallestUnit(amount: int, c: Currency): Dec {
    RoundToPrecision(Dec(amount, 0 - Decimals(c)))
  }

  function ConvertWithFxRate(amount: int, rate: RateText, source: Currency, target: Currency): Result<int> {
    match rate
    case Garbage => Err(Unparsable)
    case NaN => Err(InvalidFxRate)
    case Infinite => Err(InvalidFxRate)
    case Finite(r) =>
      if r.coef <= 0 then Err(InvalidFxRate)
      else
        var decimalDiff := Decimals(target) - Decimals(source);
        ParseBigInt(ToInteger(Mul(Mul(Dec(amount, 0), r), Dec(1, decimalDiff))))
  }

  /** The exact value amount * rate * 10^(target decimals - source decimals), as a fraction. */
  function ExactNumerator(amount: int, r: Dec, source: Currency, target: Currency): int {
    var e := r.exp + Decimals(target) - Decimals(source);
    amount * r.coef * (if e >= 0 then Pow10(e) else 1)
  }

  function ExactDenominator(r: Dec, source: Currency, target: Currency): (d: int)
    ensures d > 0
  {
    var e := r.exp + Decimals(target) - Decimals(source);
    if e >= 0 then 1 else Pow10(-e)
  }

  /** c is n/d rounded once, ties away from zero; this fixes c. */
  ghost predicate RoundedOnce(c: int, n: int, d: int) {
    && (n >= 0 ==> -d < 2 * d * c - 2 * n <= d)
    && (n <= 0 ==> -d <= 2 * d * c - 2 * n < d)
  }

  /** The product of amount and rate has at most 40 digits. */
  predicate Fits(amount: int, r: Dec) {
    r.coef > 0 && Abs(amount * r.coef) < PRECISION_BOUND
  }

  /** x is the number of smallest units nearest to the amount. */
  ghost predicate AreSmallestUnits(x: int, amount: Dec, c: Currency) {
    var e := amount.exp + Decimals(c);
    if e >= 0 then x == amount.coef * Pow10(e) else RoundedOnce(x, amount.coef, Pow10(-e))
  }

  /** y is the exact value of x units at the rate, rounded once. */
  ghost predicate IsConverted(y: int, x: int, r: Dec, source: Currency, target: Currency) {
    RoundedOnce(y, ExactNumerator(x, r, source, target), ExactDenominator(r, source, target))
  }

  // ---- Arithmetic facts -------------------------------------------------------------------

  lemma DivBracket(x: int, y: int)
    requires y > 0
    ensures y * (x / y) <= x < y * (x / y) + y
  {
  }

  lemma HalfUpIsNearest(n: int, d: int)
    requires d > 0
    ensures RoundedOnce(HalfUp(n, d), n, d)
  {
    var m := if n >= 0 then n else -n;
    var q := (2 * m + d) / (2 * d);
    DivBracket(2 * m + d, 2 * d);
    assert 2 * d * q == (2 * d) * q;
    if n < 0 { assert 2 * d * -q == -(2 * d * q); }
  }

  lemma HalfUpOfMultiple(c: int, d: int)
    requires d > 0
    ensures HalfUp(c * d, d) == c
  {
    HalfUpIsNearest(c * d, d);
    assert 2 * d * c == 2 * (c * d);
    RoundingIsUnique(HalfUp(c * d, d), c, c * d, d);
  }

  /** Nearest integers keep the order of the fractions. */
  lemma RoundingKeepsOrder(a: int, b: int, n: int, m: int, d: int)
    requires d > 0 && RoundedOnce(a, n, d) && RoundedOnce(b, m, d) && n <= m
    ensures a <= b
  {
    assert 2 * d * (a - b) == 2 * d * a - 2 * d * b;
    if a > b { MulAtLeast(2 * d, a - b, 1); }
  }

  lemma RoundingIsUnique(a: int, b: int, n: int, d: int)
    requires d > 0 && RoundedOnce(a, n, d) && RoundedOnce(b, n, d)
    ensures a == b
  {
    RoundingKeepsOrder(a, b, n, n, d);
    RoundingKeepsOrder(b, a, n, n, d);
  }

  lemma SmallestUnitsAreUnique(x: int, y: int, amount: Dec, c: Currency)
    requires AreSmallestUnits(x, amount, c) && AreSmallestUnits(y, amount, c)
    ensures x == y
  {
    var e := amount.exp + Decimals(c);
    if e < 0 { RoundingIsUnique(x, y, amount.coef, Pow10(-e)); }
  }

  lemma ConversionIsUnique(x: int, y: int, amount: int, r: Dec, source: Currency, target: Currency)
    requires IsConverted(x, amount, r, source, target) && IsConverted(y, amount, r, source, target)
    ensures x == y
  {
    RoundingIsUnique(x, y, ExactNumerator(amount, r, source, target), ExactDenominator(r, source, target));
  }

  lemma RoundingIsNearlyAdditive(x: int, y: int, z: int, n: int, m: int, d: int)
    requires d > 0 && RoundedOnce(x, n, d) && RoundedOnce(y, m, d) && RoundedOnce(z, n + m, d)
    ensures Abs(z - (x + y)) <= 1
  {
    var gap := z - (x + y);
    assert 2 * d * gap == 2 * d * z - 2 * d * x - 2 * d * y;
    assert 2 * d * -gap == -(2 * d * gap);
    if gap >= 2 { MulAtLeast(2 * d, gap, 2); }
    if gap <= -2 { MulAtLeast(2 * d, -gap, 2); }
  }

  lemma MulAtLeast(x: int, y: int, k: int)
    requires x > 0 && y >= k
    ensures x * y >= x * k
  {
    assert x * (y - k) >= 0;
    assert x * (y - k) == x * y - x * k;
  }

  /** Amounts that ToSmallestUnit returns and rates of at most 18 significant digits, as the rate
      column holds, never need more than the 40 digits. */
  lemma BoundedOperandsFit(amount: int, r: Dec)
    requires Abs(amount) < AMOUNT_BOUND && 0 < r.coef < RATE_COEF_BOUND
    ensures Fits(amount, r)
  {
    var m, b := Abs(amount), r.coef;
    assert Abs(amount * b) == m * b;
    assert m * b <= AMOUNT_BOUND * b;
  }

  lemma {:induction false} Pow10Sum(a: nat, b: nat)
    ensures Pow10(a + b) == Pow10(a) * Pow10(b)
  {
    if a == 0 {
    } else {
      Pow10Sum(a - 1, b);
    }
  }

  lemma NoEarlyRounding(amount: int, r: Dec, decimalDiff: int)
    requires Fits(amount, r)
    ensures Mul(Mul(Dec(amount, 0), r), Dec(1, decimalDiff)) == Dec(amount * r.coef, r.exp + decimalDiff)
  {
  }

  lemma MulKeepsSign(a: Dec, b: Dec)
    requires a.coef >= 0 && b.coef >= 0
    ensures Mul(a, b).coef >= 0
  {
    assert a.coef * b.coef >= 0;
    var c := a.coef * b.coef;
    var k := Excess(c);
    if k > 0 { HalfUpKeepsSign(c, Pow10(k)); }
  }

  lemma HalfUpKeepsSign(n: int, d: int)
    requires n >= 0 && d > 0
    ensures HalfUp(n, d) >= 0
  {
    assert (2 * n + d) / (2 * d) >= 0;
  }

  lemma ToIntegerKeepsSign(d: Dec)
    requires d.coef >= 0
    ensures ToInteger(d) >= 0
  {
    if d.exp >= 0 { assert d.coef * Pow10(d.exp) >= 0; } else { HalfUpKeepsSign(d.coef, Pow10(-d.exp)); }
  }

  // ---- Main results -----------------------------------------------------------------------

  /** If the product of amount and rate has at most 40 digits nothing is rounded on the way, so the
      result is the exact rational rounded once. The only failure left is a result too long to be
      printed without an exponent. */
  lemma ConversionRoundsOnce(amount: int, r: Dec, source: Currency, target: Currency)
    requires Fits(amount, r)
    ensures match ConvertWithFxRate(amount, Finite(r), source, target)
            case Ok(c) => IsConverted(c, amount, r, source, target) && Abs(c) < EXPONENT_NOTATION
            case Err(e) => e == NotAnInteger
                           && exists c :: IsConverted(c, amount, r, source, target) && Abs(c) >= EXPONENT_NOTATION
  {
    NoEarlyRounding(amount, r, Decimals(target) - Decimals(source));
    var n, d := ExactNumerator(amount, r, source, target), ExactDenominator(r, source, target);
    var e := r.exp + Decimals(target) - Decimals(source);
    var product := Mul(Mul(Dec(amount, 0), r), Dec(1, Decimals(target) - Decimals(source)));
    var c := ToInteger(product);
    if e >= 0 { assert c == n && d == 1; } else { HalfUpIsNearest(amount * r.coef, Pow10(-e)); }
    assert IsConverted(c, amount, r, source, target);
  }

  /** An amount of up to 40 digits becomes the nearest number of smallest units. */
  lemma SmallestUnitRoundsOnce(amount: Dec, c: Currency)
    requires Abs(amount.coef) < PRECISION_BOUND
    ensures match ToSmallestUnit(amount, c)
            case Ok(x) => AreSmallestUnits(x, amount, c) && Abs(x) < EXPONENT_NOTATION
            case Err(error) => error == NotAnInteger
                               && exists x :: AreSmallestUnits(x, amount, c) && Abs(x) >= EXPONENT_NOTATION
  {
    var e := amount.exp + Decimals(c);
    assert Mul(amount, Dec(1, Decimals(c))) == Dec(amount.coef, e);
    if e < 0 { HalfUpIsNearest(amount.coef, Pow10(-e)); }
    assert AreSmallestUnits(ToInteger(Dec(amount.coef, e)), amount, c);
  }

  /** One unit of display is a hundred smallest units, except of the yen, where it is one. */
  lemma WholeUnitsAreHundreds(amount: int, c: Currency)
    requires Abs(amount) < EXPONENT_NOTATION / 100
    ensures ToSmallestUnit(Dec(amount, 0), c) == Ok(if c == JPY then amount else 100 * amount)
  {
    assert Pow10(0) == 1 && Pow10(1) == 10 && Pow10(2) == 100;
  }

  /** The two conversions that the source gives as examples. */
  lemma DocumentedConversions()
    ensures ConvertWithFxRate(100, Finite(Dec(150, 0)), USD, JPY) == Ok(150)
    ensures ConvertWithFxRate(1000, Finite(Dec(12345678, -7)), EUR, USD) == Ok(1235)
  {
    hide Mul, HalfUp;
    NoEarlyRounding(100, Dec(150, 0), -2);
    NoEarlyRounding(1000, Dec(12345678, -7), 0);
    assert Pow10(1) == 10 && Pow10(2) == 100 && Pow10(3) == 1000 && Pow10(4) == 10000;
    Pow10Sum(3, 4);
    HalfUpIsNearest(15000, 100);
    HalfUpIsNearest(12345678000, 10000000);
  }

  /** Which rates are refused, whatever the amount: text that is no number, and numbers that are not
      positive or not finite. Every other failure is a result in exponent notation. */
  lemma RefusedRates(amount: int, rate: RateText, source: Currency, target: Currency)
    ensures var converted := ConvertWithFxRate(amount, rate, source, target);
            && (converted == Err(Unparsable) <==> rate == Garbage)
            && (converted == Err(InvalidFxRate) <==>
                  rate == NaN || rate == Infinite || (rate.Finite? && rate.value.coef <= 0))
            && (converted.Err? && converted.error != Unparsable && converted.error != InvalidFxRate
                ==> converted.error == NotAnInteger)
  {
    hide Mul, ToInteger;
  }

  lemma ExactNumeratorLinear(a: int, b: int, r: Dec, source: Currency, target: Currency)
    requires r.coef > 0
    ensures ExactNumerator(a + b, r, source, target)
            == ExactNumerator(a, r, source, target) + ExactNumerator(b, r, source, target)
    ensures a <= b ==> ExactNumerator(a, r, source, target) <= ExactNumerator(b, r, source, target)
  {
    var e := r.exp + Decimals(target) - Decimals(source);
    var p := if e >= 0 then Pow10(e) else 1;
    ScalingIsLinear(a, b, r.coef, p);
  }

  lemma ScalingIsLinear(a: int, b: int, x: int, y: int)
    requires x > 0 && y > 0
    ensures (a + b) * x * y == a * x * y + b * x * y
    ensures a <= b ==> a * x * y <= b * x * y
  {
    var k := x * y;
    assert k > 0;
    assert a * x * y == a * k && b * x * y == b * k && (a + b) * x * y == (a + b) * k;
    assert (a + b) * k == a * k + b * k;
    if a <= b { assert (b - a) * k >= 0; assert (b - a) * k == b * k - a * k; }
  }

  lemma ConversionIsMonotone(a: int, b: int, r: Dec, source: Currency, target: Currency, x: int, y: int)
    requires a <= b && Fits(a, r) && Fits(b, r)
    requires ConvertWithFxRate(a, Finite(r), source, target) == Ok(x)
    requires ConvertWithFxRate(b, Finite(r), source, target) == Ok(y)
    ensures x <= y
  {
    ConversionRoundsOnce(a, r, source, target);
    ConversionRoundsOnce(b, r, source, target);
    ExactNumeratorLinear(a, b, r, source, target);
    RoundingKeepsOrder(x, y, ExactNumerator(a, r, source, target), ExactNumerator(b, r, source, target),
                       ExactDenominator(r, source, target));
  }

  /** Splitting an amount before converting changes the total by at most one smallest unit. */
  lemma ConversionIsNearlyAdditive(a: int, b: int, r: Dec, source: Currency, target: Currency,
                                   x: int, y: int, z: int)
    requires Fits(a, r) && Fits(b, r) && Fits(a + b, r)
    requires ConvertWithFxRate(a, Finite(r), source, target) == Ok(x)
    requires ConvertWithFxRate(b, Finite(r), source, target) == Ok(y)
    requires ConvertWithFxRate(a + b, Finite(r), source, target) == Ok(z)
    ensures Abs(z - (x + y)) <= 1
  {
    ConversionRoundsOnce(a, r, source, target);
    ConversionRoundsOnce(b, r, source, target);
    ConversionRoundsOnce(a + b, r, source, target);
    ExactNumeratorLinear(a, b, r, source, target);
    RoundingIsNearlyAdditive(x, y, z, ExactNumerator(a, r, source, target),
                             ExactNumerator(b, r, source, target), ExactDenominator(r, source, target));
  }

  /** Rate 1, written with any number of trailing zeros, changes nothing between currencies
      with equally many decimals. */
  lemma ConversionAtOneIsIdentity(amount: int, zeros: nat, source: Currency, target: Currency)
    requires Abs(amount) < EXPONENT_NOTATION && Fits(amount, Dec(Pow10(zeros), 0 - zeros))
    requires Decimals(source) == Decimals(target)
    ensures ConvertWithFxRate(amount, Finite(Dec(Pow10(zeros), 0 - zeros)), source, target) == Ok(amount)
  {
    var r := Dec(Pow10(zeros), 0 - zeros);
    NoEarlyRounding(amount, r, 0);
    assert Pow10(0) == 1;
    if zeros > 0 { HalfUpOfMultiple(amount, Pow10(zeros)); }
    assert ToInteger(Dec(amount * Pow10(zeros), 0 - zeros)) == amount;
  }

  /** Showing an amount in display units and reading it back loses nothing. */
  lemma SmallestUnitRoundTrip(amount: int, c: Currency)
    requires Abs(amount) < EXPONENT_NOTATION
    ensures ToSmallestUnit(FromSmallestUnit(amount, c), c) == Ok(amount)
  {
    assert FromSmallestUnit(amount, c) == Dec(amount, 0 - Decimals(c));
    assert Mul(Dec(amount, 0 - Decimals(c)), Dec(1, Decimals(c))) == Dec(amount, 0);
    assert Pow10(0) == 1;
  }

  /** Forty digits are the limit: with one more in the product the intermediate rounding can carry a
      value from just below a tie up to it, and the answer moves. */
  lemma LongRatesRoundTwice()
    ensures var r := Dec(PRECISION_BOUND / 2 * 10 - 1, -41);
            ConvertWithFxRate(1, Finite(r), USD, USD) == Ok(1)
            && !RoundedOnce(1, ExactNumerator(1, r, USD, USD), ExactDenominator(r, USD, USD))
  {
    var r := Dec(PRECISION_BOUND / 2 * 10 - 1, -41);
    var c := r.coef;
    assert c >= PRECISION_BOUND && c / 10 < PRECISION_BOUND;
    assert Excess(c / 10) == 0 && Excess(c) == 1 && Pow10(0) == 1 && Pow10(1) == 10;
    var rounded := Mul(Dec(1, 0), r);
    assert rounded == Dec(PRECISION_BOUND / 2, -40);
    assert Mul(rounded, Dec(1, 0)) == rounded;
    Pow10Sum(20, 20);
    Pow10Sum(1, 40);
    Pow10Twenty();
    assert Pow10(40) == PRECISION_BOUND && Pow10(41) == 10 * PRECISION_BOUND;
  }

  lemma Pow10Twenty()
    ensures Pow10(20) == 100_000_000_000_000_000_000
  {
    Pow10Sum(5, 5);
    Pow10Sum(10, 10);
    assert Pow10(5) == 100000 by {
      assert Pow10(1) == 10 && Pow10(2) == 100 && Pow10(3) == 1000 && Pow10(4) == 10000;
    }
  }
}
