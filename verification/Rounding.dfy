/** Rounding to the nearest integer, ties to even: `std::nearbyint` and `np.rint`. */
module Rounding {

  function Rint(x: real): int {
    var floor := x.Floor;
    var rest := x - floor as real;
    if rest < 0.5 then floor
    else if rest > 0.5 then floor + 1
    else if floor % 2 == 0 then floor
    else floor + 1
  }

  lemma RintIsNearest(x: real)
    ensures -0.5 <= x - Rint(x) as real <= 0.5
    ensures x - Rint(x) as real == 0.5 || x - Rint(x) as real == -0.5 ==> Rint(x) % 2 == 0
  {
  }

  /** Rounding never crosses an integer. */
  lemma RintKeepsBounds(x: real, low: int, high: int)
    ensures x >= low as real ==> Rint(x) >= low
    ensures x <= high as real ==> Rint(x) <= high
  {
  }

  function Abs(x: real): real { if x < 0.0 then -x else x }

  function Clip(n: int, low: int, high: int): int {
    if n < low then low else if n > high then high else n
  }

  /** `n` steps of size `d`. */
  ghost function Times(d: real, n: int): real {
    d * n as real
  }

  lemma ProductIsNonNegative(a: real, b: real)
    requires a >= 0.0 && b >= 0.0
    ensures a * b >= 0.0
  {
  }

  lemma StepsOfRatio(d: real, u: real, n: int)
    requires d > 0.0
    ensures u <= n as real ==> d * u <= Times(d, n)
    ensures u >= n as real ==> d * u >= Times(d, n)
    ensures u > n as real ==> d * u > Times(d, n)
    ensures u < n as real ==> d * u < Times(d, n)
    ensures -0.5 <= u - n as real <= 0.5 ==> -d / 2.0 <= d * u - Times(d, n) <= d / 2.0
  {
    var rest := u - n as real;
    assert d * u - Times(d, n) == d * rest;
    assert rest <= 0.0 ==> d * rest <= 0.0;
    assert rest >= 0.0 ==> d * rest >= 0.0;
    assert rest > 0.0 ==> d * rest > 0.0;
    assert rest < 0.0 ==> d * rest < 0.0;
    if -0.5 <= rest <= 0.5 {
      ProductIsNonNegative(d, 0.5 - rest);
      ProductIsNonNegative(d, rest + 0.5);
      assert d * (0.5 - rest) == d * 0.5 - d * rest && d * (rest + 0.5) == d * rest + d * 0.5;
    }
  }

  lemma LessThanHalf(d: real, u: real, n: int)
    requires d > 0.0 && -0.5 < u - n as real < 0.5
    ensures -d / 2.0 < d * u - Times(d, n) < d / 2.0
  {
    var rest := u - n as real;
    ProductIsPositive(d, 0.5 - rest);
    ProductIsPositive(d, rest + 0.5);
    assert d * u - Times(d, n) == d * rest;
    assert d * (0.5 - rest) == d * 0.5 - d * rest && d * (rest + 0.5) == d * rest + d * 0.5;
  }

  lemma ProductIsPositive(a: real, b: real)
    requires a > 0.0 && b > 0.0
    ensures a * b > 0.0
  {
  }

  /** The nearest whole number of steps, the even one if two are as near: within half a step, and on
      the same side of every other whole number of steps. */
  lemma NearestSteps(v: real, d: real)
    requires d > 0.0
    ensures -d / 2.0 <= v - Times(d, Rint(v / d)) <= d / 2.0
    ensures Abs(v - Times(d, Rint(v / d))) == d / 2.0 ==> Rint(v / d) % 2 == 0
    ensures forall k :: v <= Times(d, k) ==> Rint(v / d) <= k
    ensures forall k :: v >= Times(d, k) ==> Rint(v / d) >= k
  {
    var u := v / d;
    assert d * u == v;
    RintIsNearest(u);
    StepsOfRatio(d, u, Rint(u));
    if -0.5 < u - Rint(u) as real < 0.5 {
      LessThanHalf(d, u, Rint(u));
    }
    forall k | v <= Times(d, k) ensures Rint(u) <= k {
      StepsOfRatio(d, u, k);
      RintKeepsBounds(u, k, k);
    }
    forall k | v >= Times(d, k) ensures Rint(u) >= k {
      StepsOfRatio(d, u, k);
      RintKeepsBounds(u, k, k);
    }
  }

  lemma NoSteps(d: real)
    ensures Times(d, 0) == 0.0
  {
  }
}
