/**
 * The `ChiSquaredTest` class of analysis.py: the test of a population variance
 * against a hypothesised standard deviation sigma_0, reported with its right-tailed
 * p-value. `chi2` maps degrees of freedom to scipy's chi-squared distribution.
 */
module ChiSquaredTest {
  import opened Model
  import opened Numerics

  /** (n - 1) * s^2 / sigma_0^2 */
  function Statistic(n: int, s: real, sigma0: real): (x: real)
    requires 1 < n && sigma0 != 0.0
    ensures 0.0 <= x
    ensures x == 0.0 <==> s == 0.0
  {
    SquareSign(s);
    SquareSign(sigma0);
    assert 0.0 <= ((n - 1) as real) * (s * s);
    assert ((n - 1) as real) * (s * s) == 0.0 <==> s * s == 0.0;
    QuotientSign(((n - 1) as real) * (s * s), sigma0 * sigma0);
    ((n - 1) as real) * (s * s) / (sigma0 * sigma0)
  }

  /** calculate: the statistic with n - 1 degrees of freedom and its
      right-tailed p-value. */
  function Calculate(chi2: real -> Distribution, n: int, s: real, sigma0: real): (r: TestResult)
    requires 1 < n && sigma0 != 0.0
    ensures 0.0 <= r.statistic
    ensures r.statistic == 0.0 <==> s == 0.0
    ensures r.pValue == TailPValue(chi2((n - 1) as real), r.statistic, RightTailed)
    ensures SurvivalFamily(chi2) ==> 0.0 <= r.pValue <= 1.0
  {
    var chiSquaredStatistic := Statistic(n, s, sigma0);
    var df := n - 1;
    TestResult(chiSquaredStatistic, chi2(df as real).sf(chiSquaredStatistic))
  }

  /** The statistic equals its degrees of freedom exactly when the sample
      variance s^2 equals the hypothesised variance sigma_0^2, and exceeds them
      exactly when s^2 is larger. */
  lemma StatisticComparesVariances(n: int, s: real, sigma0: real)
    requires 1 < n && sigma0 != 0.0
    ensures Statistic(n, s, sigma0) == (n - 1) as real <==> s * s == sigma0 * sigma0
    ensures Statistic(n, s, sigma0) > (n - 1) as real <==> s * s > sigma0 * sigma0
  {
    var m := (n - 1) as real;
    var v := sigma0 * sigma0;
    SquareSign(sigma0);
    var q := s * s / v;
    assert Statistic(n, s, sigma0) == m * q;
    QuotientOrder(v, s * s, v);
    QuotientOrder(s * s, v, v);
    assert v / v == 1.0;
    if q > 1.0 {
      MultiplyStrict(1.0, q, m);
    } else if q < 1.0 {
      MultiplyStrict(q, 1.0, m);
    }
  }

  /** A sample with a larger spread gives a larger statistic: the statistic
      increases with |s|. */
  lemma StatisticIncreasesWithSpread(n: int, s: real, t: real, sigma0: real)
    requires 1 < n && sigma0 != 0.0
    requires Abs(s) < Abs(t)
    ensures Statistic(n, s, sigma0) < Statistic(n, t, sigma0)
  {
    var m := (n - 1) as real;
    var v := sigma0 * sigma0;
    SquareSign(sigma0);
    assert s * s == Abs(s) * Abs(s) && t * t == Abs(t) * Abs(t);
    SquareMonotone(Abs(s), Abs(t));
    MultiplyStrict(s * s, t * t, m);
    QuotientOrder(m * (s * s), m * (t * t), v);
  }
}
