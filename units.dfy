/**
 * Conversion between token amounts in whole units and in base units (wei),
 * as the frontend's BigNumber helpers compute it. Values are exact
 * rationals; BigNumber's rounding is written out: integerValue() rounds
 * half away from zero, and a division keeps 20 decimal places, the last
 * one rounded the same way.
 */
module Units {
  /** The decimals both helpers assume when none are given. */
  const DefaultDecimals: nat := 18

  /** BigNumber's default DECIMAL_PLACES: the digits a division keeps after the point. */
  const DivisionPlaces: nat := 20

  /** 10^DivisionPlaces, the scale a division result is kept to. */
  const Scale: nat := 100_000_000_000_000_000_000

  function Pow10(d: nat): (p: nat)
    ensures p >= 1
  {
    if d == 0 then 1 else 10 * Pow10(d - 1)
  }

  lemma {:induction false} Pow10Add(a: nat, b: nat)
    ensures Pow10(a + b) == Pow10(a) * Pow10(b)
  {
    if b > 0 {
      Pow10Add(a, b - 1);
      calc {
        Pow10(a + b);
        10 * Pow10(a + b - 1);
        10 * (Pow10(a) * Pow10(b - 1));
        Pow10(a) * (10 * Pow10(b - 1));
        Pow10(a) * Pow10(b);
      }
    }
  }

  lemma ScaleIsPow10()
    ensures Pow10(DivisionPlaces) == Scale
  {
    assert Pow10(10) == 10_000_000_000;
  }

  /**
   * BigNumber's ROUND_HALF_UP to an integer: the nearest integer, a tie
   * going away from zero.
   */
  function HalfUp(x: real): (r: int)
    ensures x >= 0.0 ==> r as real - 0.5 <= x < r as real + 0.5
    ensures x < 0.0 ==> r as real - 0.5 < x <= r as real + 0.5
  {
    if x >= 0.0 then (x + 0.5).Floor else -((-x + 0.5).Floor)
  }

  /** An integer is its own rounding. */
  lemma HalfUpOfInteger(k: int)
    ensures HalfUp(k as real) == k
  {
  }

  lemma HalfUpAt(x: real, k: int)
    requires x == k as real
    ensures HalfUp(x) == k
  {
    HalfUpOfInteger(k);
  }

  /** Rounding never reverses the order of two values. */
  lemma HalfUpMonotone(x: real, y: real)
    requires x <= y
    ensures HalfUp(x) <= HalfUp(y)
  {
  }

  /**
   * toWeiWithDecimals(value, decimals): value times 10^decimals, rounded
   * to an integer. The result is within one half of the exact product.
   */
  function ToWeiWithDecimals(value: real, decimals: nat := DefaultDecimals): (r: int)
    ensures r as real - 0.5 <= value * Pow10(decimals) as real <= r as real + 0.5
  {
    HalfUp(value * Pow10(decimals) as real)
  }

  /**
   * fromWeiWithDecimals(value, decimals): value divided by 10^decimals,
   * kept to DivisionPlaces decimal places. With at most DivisionPlaces
   * decimals nothing is lost: the result is the exact quotient.
   */
  function FromWeiWithDecimals(value: int, decimals: nat := DefaultDecimals): (r: real)
    ensures decimals <= DivisionPlaces ==> r == value as real / Pow10(decimals) as real
  {
    KeptExactly(value, decimals);
    HalfUp(value as real / Pow10(decimals) as real * Scale as real) as real / Scale as real
  }

  /** Dividing by 10^decimals and keeping DivisionPlaces places is exact when decimals <= DivisionPlaces. */
  lemma KeptExactly(value: int, decimals: nat)
    ensures decimals <= DivisionPlaces ==>
              HalfUp(value as real / Pow10(decimals) as real * Scale as real) as real / Scale as real
              == value as real / Pow10(decimals) as real
  {
    if decimals <= DivisionPlaces {
      ScaleSplit(decimals);
      KeptSplit(value, decimals, Pow10(DivisionPlaces - decimals));
    }
  }

  lemma KeptSplit(value: int, decimals: nat, rest: nat)
    requires rest >= 1 && Scale == Pow10(decimals) * rest
    ensures HalfUp(value as real / Pow10(decimals) as real * Scale as real) as real / Scale as real
            == value as real / Pow10(decimals) as real
  {
    QuantiseExact(value, Pow10(decimals), rest, Scale);
  }

  /** A value with at most `decimals` fractional digits converts exactly: nothing is rounded. */
  lemma ToWeiExact(value: real, decimals: nat, k: int)
    requires value * Pow10(decimals) as real == k as real
    ensures ToWeiWithDecimals(value, decimals) == k
  {
    HalfUpAt(value * Pow10(decimals) as real, k);
  }

  /** A larger amount never converts to fewer base units. */
  lemma ToWeiMonotone(v1: real, v2: real, decimals: nat)
    requires v1 <= v2
    ensures ToWeiWithDecimals(v1, decimals) <= ToWeiWithDecimals(v2, decimals)
  {
    var x1, x2 := v1 * Pow10(decimals) as real, v2 * Pow10(decimals) as real;
    ScaledMonotone(v1, v2, decimals);
    HalfUpMonotone(x1, x2);
    assert ToWeiWithDecimals(v1, decimals) == HalfUp(x1) && ToWeiWithDecimals(v2, decimals) == HalfUp(x2);
  }

  lemma ScaleSplit(decimals: nat)
    requires decimals <= DivisionPlaces
    ensures Scale == Pow10(decimals) * Pow10(DivisionPlaces - decimals)
  {
    ScaleIsPow10();
    Pow10Add(decimals, DivisionPlaces - decimals);
  }

  /** Keeping p * rest places of value / p loses nothing. */
  lemma QuantiseExact(value: int, p: nat, rest: nat, places: nat)
    requires p >= 1 && rest >= 1 && places == p * rest
    ensures HalfUp(value as real / p as real * places as real) as real / places as real == value as real / p as real
  {
    var pr, rr, pl := p as real, rest as real, places as real;
    var x := value as real / pr;
    CastMul(p, rest);
    DivMulAssoc(value as real, pr, rr);
    CastMul(value, rest);
    assert x * pl == (value * rest) as real;
    HalfUpAt(value as real / p as real * places as real, value * rest);
    DivExact(value as real * rr, x, pl);
  }

  /** Converting base units to whole units and back gives the same base units, for up to 20 decimals. */
  lemma RoundTrip(n: int, decimals: nat)
    requires decimals <= DivisionPlaces
    ensures ToWeiWithDecimals(FromWeiWithDecimals(n, decimals), decimals) == n
  {
    ToWeiOfQuotient(n, decimals, FromWeiWithDecimals(n, decimals));
  }

  /** The exact quotient n / 10^decimals converts back to n. */
  lemma ToWeiOfQuotient(n: int, decimals: nat, f: real)
    requires f == n as real / Pow10(decimals) as real
    ensures ToWeiWithDecimals(f, decimals) == n
  {
    QuotientBack(f, n as real, Pow10(decimals) as real);
    HalfUpAt(f * Pow10(decimals) as real, n);
  }

  /** With more decimals than a division keeps, one base unit does not survive the round trip. */
  lemma RoundTripLosesBeyondPrecision()
    ensures FromWeiWithDecimals(1, DivisionPlaces + 1) == 0.0
    ensures ToWeiWithDecimals(FromWeiWithDecimals(1, DivisionPlaces + 1), DivisionPlaces + 1) == 0
  {
    ScaleIsPow10();
    Pow10Add(DivisionPlaces, 1);
    QuantiseDrops(Scale, Pow10(DivisionPlaces + 1));
  }

  /** One part in 10 * places rounds to nothing when kept to `places`. */
  lemma QuantiseDrops(places: nat, p: nat)
    requires places >= 1 && p == places * 10
    ensures HalfUp(1.0 / p as real * places as real) as real / places as real == 0.0
  {
    CastMul(places, 10);
    MulDivCancel(1.0, p as real);
    assert 1.0 / p as real * places as real == 0.1;
  }

  lemma {:induction false} ScaledMonotone(x: real, y: real, d: nat)
    requires x <= y
    ensures x * Pow10(d) as real <= y * Pow10(d) as real
  {
    if d > 0 {
      ScaledMonotone(x, y, d - 1);
      var q := Pow10(d - 1) as real;
      assert Pow10(d) as real == 10.0 * q;
      assert x * Pow10(d) as real == 10.0 * (x * q);
      assert y * Pow10(d) as real == 10.0 * (y * q);
    }
  }

  lemma CastMul(k: int, b: int)
    ensures (k * b) as real == k as real * b as real
  {
  }

  lemma DivExact(x: real, k: real, b: real)
    requires b > 0.0 && x == k * b
    ensures x / b == k
  {
  }

  lemma QuotientBack(f: real, x: real, p: real)
    requires p > 0.0 && f == x / p
    ensures f * p == x
  {
    MulDivCancel(x, p);
  }

  lemma MulDivCancel(x: real, b: real)
    requires b > 0.0
    ensures x / b * b == x
  {
  }

  lemma DivMulAssoc(x: real, p: real, q: real)
    requires p > 0.0
    ensures x / p * (p * q) == x * q
  {
    calc {
      x / p * (p * q);
      (x / p * p) * q;
      { MulDivCancel(x, p); }
      x * q;
    }
  }
}
