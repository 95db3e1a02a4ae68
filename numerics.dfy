/**
 * The numeric library the engine calls: `math.sqrt` and the normal, Student-t and
 * chi-squared distributions of `scipy.stats`. Their internals are not modelled.
 * Each one is a function value that the caller passes in, and the facts the engine
 * relies on are stated as predicates over those values, which the lemmas require.
 *
 * The module also holds the tail policy written once, independently of the engines:
 * the p-value of a statistic for each tail direction, and the rejection region a
 * critical value marks out. The engines' own formulas are proved equal to it.
 */
module Numerics {
  import opened Model

  /** A continuous distribution as scipy exposes it: cumulative distribution
      function, survival function and percent-point (quantile) function. */
  datatype Distribution = Distribution(cdf: real -> real, sf: real -> real, ppf: real -> real)

  function Abs(x: real): real { if x < 0.0 then -x else x }

  function Min(a: real, b: real): real { if a <= b then a else b }

  // ---------------------------------------------------------------------------
  // What the engine assumes of math.sqrt and of scipy's distributions
  // ---------------------------------------------------------------------------

  /** `sqrt` is the non-negative square root on the non-negative reals. */
  ghost predicate IsSqrt(sqrt: real -> real) {
    forall x :: 0.0 <= x ==> 0.0 <= sqrt(x) && sqrt(x) * sqrt(x) == x
  }

  ghost predicate SurvivalIsComplement(d: Distribution) {
    forall x :: d.sf(x) == 1.0 - d.cdf(x)
  }

  ghost predicate CdfIncreasing(d: Distribution) {
    forall x, y :: x < y ==> d.cdf(x) < d.cdf(y)
  }

  ghost predicate CdfInUnitInterval(d: Distribution) {
    forall x :: 0.0 < d.cdf(x) < 1.0
  }

  /** `ppf` is the inverse of `cdf` on the open unit interval. */
  ghost predicate PpfInvertsCdf(d: Distribution) {
    forall p :: 0.0 < p < 1.0 ==> d.cdf(d.ppf(p)) == p
  }

  /** cdf(-x) == 1 - cdf(x), written over two variables so that it has a trigger. */
  ghost predicate CdfSymmetric(d: Distribution) {
    forall x, y :: x + y == 0.0 ==> d.cdf(x) + d.cdf(y) == 1.0
  }

  ghost predicate Continuous(d: Distribution) {
    SurvivalIsComplement(d) && CdfIncreasing(d) && CdfInUnitInterval(d) && PpfInvertsCdf(d)
  }

  /** The standard normal and every Student-t distribution. */
  ghost predicate SymmetricContinuous(d: Distribution) {
    Continuous(d) && CdfSymmetric(d)
  }

  /** A family whose survival function is a probability, such as chi-squared. */
  ghost predicate SurvivalFamily(family: real -> Distribution) {
    forall df, x :: 0.0 < df ==> 0.0 <= family(df).sf(x) <= 1.0
  }

  // ---------------------------------------------------------------------------
  // Consequences of those assumptions
  // ---------------------------------------------------------------------------

  lemma SqrtPositive(sqrt: real -> real, x: real)
    requires IsSqrt(sqrt) && 0.0 < x
    ensures 0.0 < sqrt(x)
  {
  }

  /** Dividing by a positive number keeps the sign of the dividend. */
  lemma QuotientSign(a: real, s: real)
    requires 0.0 < s
    ensures a / s < 0.0 <==> a < 0.0
    ensures a / s == 0.0 <==> a == 0.0
    ensures 0.0 < a / s <==> 0.0 < a
  {
    assert a / s * s == a;
  }

  /** A square is non-negative, and zero only for zero. */
  lemma SquareSign(x: real)
    ensures 0.0 <= x * x
    ensures x * x == 0.0 <==> x == 0.0
  {
    if x != 0.0 {
      assert x * x / x == x;
    }
    if x < 0.0 {
      assert x * x == (-x) * (-x);
    }
  }

  lemma ProductPositive(a: real, b: real)
    requires 0.0 < a && 0.0 < b
    ensures 0.0 < a * b
  {
  }

  /** Multiplying by a positive number keeps a strict order. */
  lemma MultiplyStrict(a: real, b: real, c: real)
    requires a < b && 0.0 < c
    ensures a * c < b * c
  {
    ProductPositive(b - a, c);
    assert (b - a) * c == b * c - a * c;
  }

  /** Squaring keeps a strict order on the non-negative reals. */
  lemma SquareMonotone(a: real, b: real)
    requires 0.0 <= a < b
    ensures a * a < b * b
  {
    ProductPositive(b - a, b + a);
    assert (b - a) * (b + a) == b * b - a * a;
  }

  /** A factor of a positive product with a positive cofactor is positive. */
  lemma FactorPositive(a: real, b: real)
    requires 0.0 < b && 0.0 < a * b
    ensures 0.0 < a
  {
    QuotientSign(a * b, b);
    assert a * b / b == a;
  }

  /** Between non-negative reals, a smaller square means a smaller root. */
  lemma RootAbove(x: real, d: real)
    requires 0.0 <= x && 0.0 <= d && d * d < x * x
    ensures d < x
  {
    SquareSign(x);
    SquareSign(d);
    assert 0.0 < x + d;
    assert (x - d) * (x + d) == x * x - d * d;
    FactorPositive(x - d, x + d);
  }

  /** Dividing by a positive number keeps the order. */
  lemma QuotientOrder(x: real, y: real, m: real)
    requires 0.0 < m
    ensures x / m < y / m <==> x < y
  {
    QuotientSign(y - x, m);
    assert (y - x) / m == y / m - x / m by {
      assert (y / m - x / m) * m == y - x;
    }
  }

  /** Multiplying by a positive number is injective. */
  lemma ProductInjective(x: real, y: real, k: real)
    requires 0.0 < k
    ensures x * k == y * k <==> x == y
  {
    if x < y {
      MultiplyStrict(x, y, k);
    } else if y < x {
      MultiplyStrict(y, x, k);
    }
  }

  /** Dividing by a positive number is injective. */
  lemma QuotientInjective(x: real, y: real, m: real)
    requires 0.0 < m
    ensures x / m == y / m <==> x == y
  {
    assert x / m * m == x && y / m * m == y;
  }

  /** A positive number divided by two positive numbers gives the same quotient
      only when the divisors are equal. */
  lemma DivisorInjective(n: real, u: real, v: real)
    requires 0.0 < n && 0.0 < u && 0.0 < v
    ensures n / u == n / v <==> u == v
  {
    var c := n / u;
    assert c * u == n;
    QuotientSign(n, u);
    if n / u == n / v {
      assert c * v == n;
      assert c * (u - v) == 0.0;
    }
  }

  /** A value lies at or below the p-quantile exactly when its cdf is at most p. */
  lemma AtOrBelowQuantile(d: Distribution, x: real, p: real)
    requires Continuous(d) && 0.0 < p < 1.0
    ensures x <= d.ppf(p) <==> d.cdf(x) <= p
  {
    var q := d.ppf(p);
    assert d.cdf(q) == p;
    if x < q {
      assert d.cdf(x) < d.cdf(q);
    } else if q < x {
      assert d.cdf(q) < d.cdf(x);
    }
  }

  /** A value lies at or above the p-quantile exactly when its cdf is at least p. */
  lemma AtOrAboveQuantile(d: Distribution, x: real, p: real)
    requires Continuous(d) && 0.0 < p < 1.0
    ensures d.ppf(p) <= x <==> p <= d.cdf(x)
  {
    var q := d.ppf(p);
    assert d.cdf(q) == p;
    if x < q {
      assert d.cdf(x) < d.cdf(q);
    } else if q < x {
      assert d.cdf(q) < d.cdf(x);
    }
  }

  lemma CdfAtZero(d: Distribution)
    requires SymmetricContinuous(d)
    ensures d.cdf(0.0) == 0.5
  {
    assert d.cdf(0.0) + d.cdf(0.0) == 1.0;
  }

  /** The cdf of a symmetric distribution is at least one half exactly on the non-negative reals. */
  lemma CdfAtLeastHalf(d: Distribution, x: real)
    requires SymmetricContinuous(d)
    ensures 0.0 <= x <==> 0.5 <= d.cdf(x)
  {
    CdfAtZero(d);
    if x < 0.0 {
      assert d.cdf(x) < d.cdf(0.0);
    } else if 0.0 < x {
      assert d.cdf(0.0) < d.cdf(x);
    }
  }

  /** The upper quantiles of a symmetric distribution are the negated lower ones. */
  lemma QuantileReflection(d: Distribution, p: real)
    requires SymmetricContinuous(d) && 0.0 < p < 1.0
    ensures d.ppf(1.0 - p) == -d.ppf(p)
  {
    var q, r := d.ppf(p), d.ppf(1.0 - p);
    assert d.cdf(q) == p && d.cdf(r) == 1.0 - p;
    assert d.cdf(q) + d.cdf(-q) == 1.0;
    // cdf is injective, and cdf(r) == 1 - p == cdf(-q)
  }

  /** Quantiles at one half and above are non-negative. */
  lemma UpperQuantileNonNegative(d: Distribution, p: real)
    requires SymmetricContinuous(d) && 0.5 <= p < 1.0
    ensures 0.0 <= d.ppf(p)
  {
    CdfAtLeastHalf(d, d.ppf(p));
  }

  // ---------------------------------------------------------------------------
  // The tail policy
  // ---------------------------------------------------------------------------

  /** The p-value of statistic x: the lower tail, the upper tail, or twice the
      smaller of the two. */
  ghost function TailPValue(d: Distribution, x: real, test: Test): real {
    match test
    case LeftTailed => d.cdf(x)
    case RightTailed => d.sf(x)
    case TwoTailed => 2.0 * Min(d.cdf(x), d.sf(x))
  }

  /** The rejection region at level alpha: at or below the alpha-quantile, at or
      above the (1 - alpha)-quantile, or outside the alpha/2 and 1 - alpha/2 ones. */
  ghost predicate InRejectionRegion(d: Distribution, x: real, alpha: real, test: Test) {
    match test
    case LeftTailed => x <= d.ppf(alpha)
    case RightTailed => d.ppf(1.0 - alpha) <= x
    case TwoTailed => x <= d.ppf(alpha / 2.0) || d.ppf(1.0 - alpha / 2.0) <= x
  }

  /** Duality of the critical-value and p-value procedures: a statistic falls in
      the rejection region exactly when its p-value is at most alpha. */
  lemma RejectionRegionIffSmallPValue(d: Distribution, x: real, alpha: real, test: Test)
    requires Continuous(d) && 0.0 < alpha < 1.0
    ensures InRejectionRegion(d, x, alpha, test) <==> TailPValue(d, x, test) <= alpha
  {
    assert d.sf(x) == 1.0 - d.cdf(x);
    match test
    case LeftTailed =>
      AtOrBelowQuantile(d, x, alpha);
    case RightTailed =>
      AtOrAboveQuantile(d, x, 1.0 - alpha);
    case TwoTailed =>
      AtOrBelowQuantile(d, x, alpha / 2.0);
      AtOrAboveQuantile(d, x, 1.0 - alpha / 2.0);
  }

  /** A target lies in the interval centre -/+ table * se exactly when the
      standardised distance (centre - target) / se is at most table in size. */
  lemma WithinMarginIff(centre: real, target: real, se: real, table: real)
    requires 0.0 < se
    ensures (centre - table * se <= target && target <= centre + table * se)
            <==> Abs((centre - target) / se) <= table
  {
    var z := (centre - target) / se;
    assert centre - target == z * se;
    assert z <= table <==> z * se <= table * se;
    assert -z <= table <==> -z * se <= table * se;
  }
}
