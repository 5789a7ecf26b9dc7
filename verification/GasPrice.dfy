/** The gas price: the queried price times a multiplier, capped, and printed to four significant digits. */
module GasPrice {

  function Pow10(e: int): (p: real)
    ensures 0.0 < p
    decreases if e < 0 then -e else e
  {
    if e == 0 then 1.0 else if 0 < e then 10.0 * Pow10(e - 1) else Pow10(e + 1) / 10.0
  }

  lemma Pow10Step(e: int)
    ensures Pow10(e + 1) == 10.0 * Pow10(e)
  {
  }

  lemma {:induction false} Pow10Rises(e: int, f: int)
    requires e <= f
    ensures Pow10(e) <= Pow10(f)
    decreases f - e
  {
    if e < f {
      Pow10Step(e);
      Pow10Rises(e + 1, f);
    }
  }

  /** The decimal exponent of a positive number: 10^e <= x < 10^(e+1). */
  function Exponent(x: real): (e: int)
    requires 0.0 < x
    ensures Pow10(e) <= x < Pow10(e + 1)
    decreases x < 1.0, if x < 1.0 then (1.0 / x).Floor else x.Floor
  {
    if x < 1.0 then
      assert 10.0 * x < 1.0 ==> 1.0 / (10.0 * x) == (1.0 / x) / 10.0 <= 1.0 / x - 9.0;
      var e := Exponent(10.0 * x);
      Pow10Step(e - 1);
      Pow10Step(e);
      e - 1
    else if 10.0 <= x then
      var e := Exponent(x / 10.0);
      Pow10Step(e);
      Pow10Step(e + 1);
      e + 1
    else
      Pow10Step(0);
      0
  }

  lemma ExponentIsUnique(x: real, e: int)
    requires 0.0 < x && Pow10(e) <= x < Pow10(e + 1)
    ensures Exponent(x) == e
  {
    var f := Exponent(x);
    if f < e {
      Pow10Rises(f + 1, e);
    } else if e < f {
      Pow10Rises(e + 1, f);
    }
  }

  lemma ExponentRises(x: real, y: real)
    requires 0.0 < x <= y
    ensures Exponent(x) <= Exponent(y)
  {
    if Exponent(y) < Exponent(x) {
      Pow10Rises(Exponent(y) + 1, Exponent(x));
    }
  }

  /** To the nearest integer; halfway cases go to the even one. */
  function RoundHalfEven(y: real): (m: int)
    ensures -0.5 <= m as real - y <= 0.5
  {
    var f := y.Floor;
    if y - f as real < 0.5 then f
    else if y - f as real > 0.5 then f + 1
    else if f % 2 == 0 then f else f + 1
  }

  lemma RoundingRises(x: real, y: real)
    requires x <= y
    ensures RoundHalfEven(x) <= RoundHalfEven(y)
  {
  }

  lemma RoundingKeepsIntegers(n: int)
    ensures RoundHalfEven(n as real) == n
  {
  }

  lemma RoundedBetween(y: real, low: int, high: int)
    requires low as real <= y <= high as real
    ensures low <= RoundHalfEven(y) <= high
  {
    RoundingKeepsIntegers(low);
    RoundingKeepsIntegers(high);
    RoundingRises(low as real, y);
    RoundingRises(y, high as real);
  }

  /** The unit of the fourth significant digit. */
  function Unit(x: real): (u: real)
    requires 0.0 < x
    ensures 0.0 < u && 1000.0 * u <= x < 10000.0 * u
  {
    var e := Exponent(x);
    Pow10Step(e);
    Pow10Step(e - 1);
    Pow10Step(e - 2);
    Pow10Step(e - 3);
    Pow10(e - 3)
  }

  /** A number shown as a whole number of units. */
  function Shown(x: real, u: real): real
    requires 0.0 < u
  {
    RoundHalfEven(x / u) as real * u
  }

  /** The value that printing to four significant digits shows. */
  function Round4(x: real): real
    requires 0.0 <= x
  {
    if x == 0.0 then 0.0 else Shown(x, Unit(x))
  }

  lemma MulLe(a: real, b: real, u: real)
    requires a <= b && 0.0 <= u
    ensures a * u <= b * u
  {
  }

  lemma QuotientBounds(x: real, u: real, low: real, high: real)
    requires 0.0 < u && low * u <= x <= high * u
    ensures low <= x / u <= high
  {
    var y := x / u;
    assert y * u == x;
    assert y < low ==> (low - y) * u > 0.0;
    assert high < y ==> (y - high) * u > 0.0;
    assert (low - y) * u == low * u - y * u;
    assert (y - high) * u == y * u - high * u;
  }

  lemma ShownBounds(x: real, u: real, low: int, high: int)
    requires 0.0 < u && low as real * u <= x <= high as real * u
    ensures low as real * u <= Shown(x, u) <= high as real * u
  {
    QuotientBounds(x, u, low as real, high as real);
    RoundedBetween(x / u, low, high);
    MulLe(low as real, RoundHalfEven(x / u) as real, u);
    MulLe(RoundHalfEven(x / u) as real, high as real, u);
  }

  lemma ShownRises(x: real, y: real, u: real)
    requires 0.0 < u && x <= y
    ensures Shown(x, u) <= Shown(y, u)
  {
    assert x / u <= y / u;
    RoundingRises(x / u, y / u);
    MulLe(RoundHalfEven(x / u) as real, RoundHalfEven(y / u) as real, u);
  }

  lemma HalfUnit(x: real, y: real, m: real, u: real)
    requires 0.0 < u && y * u == x && 1000.0 * u <= x && -0.5 <= m - y <= 0.5
    ensures -x / 2000.0 <= m * u - x <= x / 2000.0
  {
    MulLe(m - y, 0.5, u);
    MulLe(-0.5, m - y, u);
    assert (m - y) * u == m * u - y * u;
  }

  lemma ShownIsClose(x: real, u: real)
    requires 0.0 < u && 1000.0 * u <= x
    ensures -x / 2000.0 <= Shown(x, u) - x <= x / 2000.0
  {
    HalfUnit(x, x / u, RoundHalfEven(x / u) as real, u);
  }

  /** Rounding is off by at most one part in 2000. */
  lemma Round4IsClose(x: real)
    requires 0.0 <= x
    ensures -x / 2000.0 <= Round4(x) - x <= x / 2000.0
  {
    if 0.0 < x {
      ShownIsClose(x, Unit(x));
    }
  }

  /** The unit grows with the number, and a strictly larger one is at least ten times as large. */
  lemma UnitRises(x: real, y: real)
    requires 0.0 < x <= y
    ensures Unit(y) == Unit(x) || 10.0 * Unit(x) <= Unit(y)
  {
    ExponentRises(x, y);
    if Exponent(x) < Exponent(y) {
      Pow10Rises(Exponent(x) + 1 - 3, Exponent(y) - 3);
      Pow10Step(Exponent(x) - 3);
    }
  }

  /** Rounding keeps the order. */
  lemma Round4Rises(x: real, y: real)
    requires 0.0 <= x <= y
    ensures 0.0 <= Round4(x) <= Round4(y)
  {
    if 0.0 < y {
      ShownBounds(y, Unit(y), 1000, 10000);
    }
    if 0.0 < x {
      ShownBounds(x, Unit(x), 1000, 10000);
      UnitRises(x, y);
      if Unit(x) == Unit(y) {
        ShownRises(x, y, Unit(x));
      }
    }
  }

  /** At most four significant digits. */
  ghost predicate FourDigits(x: real) {
    exists m: int, k: int :: IsDigits(x, m, k)
  }

  predicate IsDigits(x: real, m: int, k: int) {
    0 <= m < 10000 && x == m as real * Pow10(k)
  }

  lemma UnitOfDigits(x: real, u: real, k: int)
    requires u == Pow10(k) && 1000.0 * u <= x < 10000.0 * u
    ensures Unit(x) == u
  {
    Pow10Step(k);
    Pow10Step(k + 1);
    Pow10Step(k + 2);
    Pow10Step(k + 3);
    ExponentIsUnique(x, k + 3);
  }

  lemma TenTimesFewer(m: int, k: int)
    ensures m as real * Pow10(k) == (10 * m) as real * Pow10(k - 1)
  {
    Pow10Step(k - 1);
  }

  lemma ShownExact(x: real, m: int, u: real)
    requires 0.0 < u && x == m as real * u
    ensures Shown(x, u) == x
  {
    ShownBounds(x, u, m, m);
  }

  lemma FullDigitsRange(x: real, r: real, u: real)
    requires 1000.0 <= r < 10000.0 && 0.0 < u && x == r * u
    ensures 1000.0 * u <= x < 10000.0 * u
  {
    assert 0.0 <= (r - 1000.0) * u == r * u - 1000.0 * u;
    assert 0.0 < (10000.0 - r) * u == 10000.0 * u - r * u;
  }

  lemma FullDigitsExact(x: real, m: int, u: real, k: int)
    requires 1000 <= m < 10000 && u == Pow10(k) && x == m as real * u
    ensures 0.0 < x && Round4(x) == x
  {
    FullDigitsRange(x, m as real, u);
    UnitOfDigits(x, u, k);
    ShownExact(x, m, u);
  }

  /** A number of at most four significant digits is shown exactly. */
  lemma {:induction false} Round4Exact(x: real, m: int, k: int)
    requires IsDigits(x, m, k)
    ensures 0.0 <= x && Round4(x) == x
    decreases 10000 - m
  {
    if m == 0 {
    } else if m < 1000 {
      TenTimesFewer(m, k);
      Round4Exact(x, 10 * m, k - 1);
    } else {
      FullDigitsExact(x, m, Pow10(k), k);
    }
  }

  // ----- the price -----

  function Capped(multiplier: real, price: real, max: real): real {
    if max < multiplier * price then max else multiplier * price
  }

  lemma CappedRises(multiplier: real, price: real, higher: real, max: real)
    requires 0.0 <= multiplier && 0.0 <= price <= higher && 0.0 <= max
    ensures 0.0 <= Capped(multiplier, price, max) <= Capped(multiplier, higher, max)
  {
    assert 0.0 <= multiplier * price;
    assert 0.0 <= multiplier * (higher - price) == multiplier * higher - multiplier * price;
  }

  /** The gas price the sender offers for a queried price. */
  function MultiplyGas(multiplier: real, price: real, max: real): real
    requires 0.0 <= multiplier && 0.0 <= price && 0.0 <= max
  {
    Round4(Capped(multiplier, price, max))
  }

  /** The offered price follows the queried one, and is off the exact capped product by at most one part in 2000. */
  lemma PriceIsFaithful(multiplier: real, price: real, higher: real, max: real)
    requires 0.0 <= multiplier && 0.0 <= price <= higher && 0.0 <= max
    ensures MultiplyGas(multiplier, price, max) <= MultiplyGas(multiplier, higher, max)
    ensures var exact := Capped(multiplier, price, max);
            -exact / 2000.0 <= MultiplyGas(multiplier, price, max) - exact <= exact / 2000.0
  {
    CappedRises(multiplier, price, higher, max);
    Round4Rises(Capped(multiplier, price, max), Capped(multiplier, higher, max));
    Round4IsClose(Capped(multiplier, price, max));
  }

  lemma MaxIsReached(multiplier: real, max: real)
    requires 0.0 < multiplier && 0.0 <= max
    ensures 0.0 <= max / multiplier && Capped(multiplier, max / multiplier, max) == max
  {
    assert multiplier * (max / multiplier) == max;
  }

  lemma CapIsKept(multiplier: real, price: real, max: real)
    requires 0.0 <= multiplier && 0.0 <= price && 0.0 <= max
    ensures MultiplyGas(multiplier, price, max) <= Round4(max)
  {
    MulLe(0.0, price, multiplier);
    Round4Rises(Capped(multiplier, price, max), max);
  }

  /** The offered price never exceeds the maximum exactly when the maximum itself is not rounded up. */
  lemma PriceStaysBelowMaxExactly(multiplier: real, max: real)
    requires 0.0 < multiplier && 0.0 <= max
    ensures (forall price: real :: 0.0 <= price ==> MultiplyGas(multiplier, price, max) <= max) <==> Round4(max) <= max
  {
    forall price: real | 0.0 <= price ensures MultiplyGas(multiplier, price, max) <= Round4(max) {
      CapIsKept(multiplier, price, max);
    }
    MaxIsReached(multiplier, max);
    assert MultiplyGas(multiplier, max / multiplier, max) == Round4(max);
  }

  /** So a maximum of at most four significant digits is never exceeded. */
  lemma FourDigitMaxIsKept(multiplier: real, price: real, max: real)
    requires 0.0 <= multiplier && 0.0 <= price && 0.0 <= max && FourDigits(max)
    ensures MultiplyGas(multiplier, price, max) <= max
  {
    var m, k :| IsDigits(max, m, k);
    Round4Exact(max, m, k);
    CapIsKept(multiplier, price, max);
  }

  /** A longer maximum can be exceeded: 1.0006 is shown as 1.001. */
  lemma LongMaxIsExceeded()
    ensures MultiplyGas(1.0, 2.0, 1.0006) == 1.001
  {
    ExponentIsUnique(1.0006, 0);
    assert Pow10(-1) == 0.1 && Pow10(-2) == 0.01 && Pow10(-3) == 0.001;
  }
}
