/**
 * The `ZTest` class of analysis.py: the proportion and mean Z-tests over the
 * standard normal distribution `norm`, the critical-value, p-value and
 * confidence-interval decision procedures, and the interval builders.
 * Every result is the value before the source's final `round`.
 */
module ZTest {
  import opened Model
  import opened Numerics

  // ---------------------------------------------------------------------------
  // Tail policy over the normal distribution
  // ---------------------------------------------------------------------------

  /** get_p_value_table_value: the two-tailed p-value goes through |z|. For a
      symmetric distribution this is the reference tail policy (the two-tailed
      value being twice the smaller tail), and so a probability. */
  function PValueTableValue(norm: Distribution, z: real, test: Test): (p: real)
    ensures SymmetricContinuous(norm) ==> p == TailPValue(norm, z, test) && 0.0 <= p <= 1.0
  {
    var p := match test
      case TwoTailed => 2.0 * (1.0 - norm.cdf(Abs(z)))
      case LeftTailed => norm.cdf(z)
      case RightTailed => 1.0 - norm.cdf(z);
    assert SymmetricContinuous(norm) ==> p == TailPValue(norm, z, test) && 0.0 <= p <= 1.0 by {
      if SymmetricContinuous(norm) {
        assert norm.sf(z) == 1.0 - norm.cdf(z);
        CdfAtLeastHalf(norm, z);
        if z < 0.0 {
          assert norm.cdf(z) + norm.cdf(-z) == 1.0;
        }
      }
    }
    p
  }

  // ---------------------------------------------------------------------------
  // Proportion test
  // ---------------------------------------------------------------------------

  /** calculate_proportion: z = (x/n - p0) / sqrt(p0 (1 - p0) / n). */
  function CalculateProportion(sqrt: real -> real, norm: Distribution, p0: real, x: int, n: int, test: Test)
    : (r: TestResult)
    requires IsSqrt(sqrt) && 0.0 < p0 < 1.0 && 0 < n
    ensures r.statistic < 0.0 <==> (x as real) / (n as real) < p0
    ensures r.statistic == 0.0 <==> (x as real) / (n as real) == p0
    ensures r.pValue == PValueTableValue(norm, r.statistic, test)
  {
    var pHat := (x as real) / (n as real);
    var variance := p0 * (1.0 - p0) / (n as real);
    assert 0.0 < p0 * (1.0 - p0);
    SqrtPositive(sqrt, variance);
    QuotientSign(pHat - p0, sqrt(variance));
    var z := (pHat - p0) / sqrt(variance);
    TestResult(z, PValueTableValue(norm, z, test))
  }

  /** The fixture p0 = 0.1, x = 33, n = 362: z lies within rounding of -0.56, and
      whatever the normal tables give, the three p-values satisfy
      two-tailed = 2 * left-tailed and right-tailed = 1 - left-tailed
      (0.575 = 2 * 0.288 and 0.712 = 1 - 0.288, up to rounding). */
  lemma ProportionFixture(sqrt: real -> real, norm: Distribution)
    requires IsSqrt(sqrt) && SymmetricContinuous(norm)
    ensures var two := CalculateProportion(sqrt, norm, 0.1, 33, 362, TwoTailed);
            var left := CalculateProportion(sqrt, norm, 0.1, 33, 362, LeftTailed);
            var right := CalculateProportion(sqrt, norm, 0.1, 33, 362, RightTailed);
            -0.565 < left.statistic < -0.555
            && two.statistic == left.statistic == right.statistic
            && two.pValue == 2.0 * left.pValue
            && right.pValue == 1.0 - left.pValue
  {
    var s := sqrt(0.1 * (1.0 - 0.1) / 362.0);
    assert s * s == 0.09 / 362.0;
    SqrtPositive(sqrt, 0.09 / 362.0);
    var z := (33.0 / 362.0 - 0.1) / s;
    assert z == CalculateProportion(sqrt, norm, 0.1, 33, 362, LeftTailed).statistic;
    assert z * s == -3.2 / 362.0;
    assert z * z * (s * s) == (3.2 / 362.0) * (3.2 / 362.0);
    assert z * z == 10.24 / 32.58;
    assert z < 0.0;
    assert (-z) * (-z) == z * z;
    RootAbove(-z, 0.555);
    RootAbove(0.565, -z);
    CdfAtLeastHalf(norm, z);
  }

  // ---------------------------------------------------------------------------
  // The three decision procedures
  // ---------------------------------------------------------------------------

  /** calculate_hypothesis_critical_value_test_method. For a continuous
      distribution and 0 < alpha < 1 it rejects exactly when the reference p-value
      of z is at most alpha. */
  function CriticalValueTestMethod(norm: Distribution, z: real, alpha: real, test: Test)
    : (c: HypothesisTestConclusion)
    ensures Continuous(norm) && 0.0 < alpha < 1.0 ==>
              (c == RejectH0 <==> TailPValue(norm, z, test) <= alpha)
  {
    var c := match test
      case TwoTailed =>
        var zAlpha2 := 1.0 - alpha / 2.0;
        var criticalValueUpper := norm.ppf(zAlpha2);
        var criticalValueLower := norm.ppf(1.0 - zAlpha2);
        if z <= criticalValueLower || z >= criticalValueUpper then RejectH0 else FailToRejectH0
      case LeftTailed =>
        if z <= norm.ppf(alpha) then RejectH0 else FailToRejectH0
      case RightTailed =>
        if z >= norm.ppf(1.0 - alpha) then RejectH0 else FailToRejectH0;
    assert Continuous(norm) && 0.0 < alpha < 1.0 ==>
             (c == RejectH0 <==> TailPValue(norm, z, test) <= alpha) by {
      if Continuous(norm) && 0.0 < alpha < 1.0 {
        RejectionRegionIffSmallPValue(norm, z, alpha, test);
        assert 1.0 - (1.0 - alpha / 2.0) == alpha / 2.0;
      }
    }
    c
  }

  /** calculate_p_value_test_method. */
  function PValueTestMethod(pValue: real, alpha: real): HypothesisTestConclusion {
    if pValue <= alpha then RejectH0 else FailToRejectH0
  }

  /** calculate_confidence_interval_test_method: both bounds are inclusive, so for
      an ordered interval it fails to reject exactly the values within half its
      width of its centre. */
  function ConfidenceIntervalTestMethod(p0: real, min: real, max: real): (c: HypothesisTestConclusion)
    ensures min <= max ==>
              (c == FailToRejectH0 <==> Abs(p0 - (min + max) / 2.0) <= (max - min) / 2.0)
  {
    if p0 >= min && p0 <= max then FailToRejectH0 else RejectH0
  }

  /** The critical-value procedure rejects exactly when the p-value procedure
      does, in every tail direction. */
  lemma CriticalValueAgreesWithPValue(norm: Distribution, z: real, alpha: real, test: Test)
    requires SymmetricContinuous(norm) && 0.0 < alpha < 1.0
    ensures CriticalValueTestMethod(norm, z, alpha, test)
            == PValueTestMethod(PValueTableValue(norm, z, test), alpha)
  {
  }

  /** The decision fixtures z = -0.56 and p = 0.288 at alpha = 0.05: given only
      that the normal table puts cdf(-0.56) near 0.288, every tail direction of the
      critical-value procedure, and the p-value procedure, fail to reject. */
  lemma DecisionFixtures(norm: Distribution)
    requires SymmetricContinuous(norm) && 0.28 < norm.cdf(-0.56) < 0.29
    ensures CriticalValueTestMethod(norm, -0.56, 0.05, TwoTailed) == FailToRejectH0
    ensures CriticalValueTestMethod(norm, -0.56, 0.05, LeftTailed) == FailToRejectH0
    ensures CriticalValueTestMethod(norm, -0.56, 0.05, RightTailed) == FailToRejectH0
    ensures PValueTestMethod(0.288, 0.05) == FailToRejectH0
  {
    assert norm.cdf(-0.56) + norm.cdf(0.56) == 1.0;
    CriticalValueAgreesWithPValue(norm, -0.56, 0.05, TwoTailed);
    CriticalValueAgreesWithPValue(norm, -0.56, 0.05, LeftTailed);
    CriticalValueAgreesWithPValue(norm, -0.56, 0.05, RightTailed);
  }

  // ---------------------------------------------------------------------------
  // Confidence intervals
  // ---------------------------------------------------------------------------

  /** get_z_score_table_value: the quantile at 1 - alpha/2 for a two-tailed test
      and at 1 - alpha for either one-tailed test. */
  function ZScoreTableValue(norm: Distribution, alpha: real, test: Test): (v: real)
    ensures Continuous(norm) && 0.0 < alpha < 1.0 ==>
              norm.cdf(v) == if test == TwoTailed then 1.0 - alpha / 2.0 else 1.0 - alpha
  {
    var probability := if test == TwoTailed then 1.0 - alpha / 2.0 else 1.0 - alpha;
    norm.ppf(probability)
  }

  /** The table value is the size of the critical value(s) of the same test: both
      two-tailed boundaries are -/+ v, the right-tailed one is v, and the
      left-tailed one is -v. It is non-negative for a two-tailed test, and for a
      one-tailed test whenever alpha is at most one half. */
  lemma ZScoreTableValueIsCriticalMagnitude(norm: Distribution, alpha: real, test: Test)
    requires SymmetricContinuous(norm) && 0.0 < alpha < 1.0
    ensures var v := ZScoreTableValue(norm, alpha, test);
            (test == TwoTailed ==> v == norm.ppf(1.0 - alpha / 2.0) && -v == norm.ppf(alpha / 2.0))
            && (test == RightTailed ==> v == norm.ppf(1.0 - alpha))
            && (test == LeftTailed ==> -v == norm.ppf(alpha))
            && (test == TwoTailed || alpha <= 0.5 ==> 0.0 <= v)
  {
    QuantileReflection(norm, alpha / 2.0);
    QuantileReflection(norm, alpha);
    if test == TwoTailed {
      UpperQuantileNonNegative(norm, 1.0 - alpha / 2.0);
    } else if alpha <= 0.5 {
      UpperQuantileNonNegative(norm, 1.0 - alpha);
    }
  }

  /** sqrt(p-hat q-hat / n), the standard error the proportion interval uses:
      zero when x is 0 or n, and positive in between. */
  function ProportionStandardError(sqrt: real -> real, x: int, n: int): (se: real)
    requires IsSqrt(sqrt) && 0 < n && 0 <= x <= n
    ensures var pHat := (x as real) / (n as real);
            se * se == pHat * (1.0 - pHat) / (n as real)
    ensures 0.0 <= se
    ensures se == 0.0 <==> x == 0 || x == n
  {
    var pHat := (x as real) / (n as real);
    var qHat := 1.0 - pHat;
    var variance := pHat * qHat / (n as real);
    QuotientSign(x as real, n as real);
    QuotientOrder(x as real, n as real, n as real);
    assert (n as real) / (n as real) == 1.0;
    assert 0 < x < n ==> 0.0 < sqrt(variance) by {
      if 0 < x < n {
        ProductPositive(pHat, qHat);
        QuotientSign(pHat * qHat, n as real);
        SqrtPositive(sqrt, variance);
      }
    }
    assert !(0 < x < n) ==> sqrt(variance) == 0.0 by {
      if !(0 < x < n) {
        assert pHat == 0.0 || qHat == 0.0;
        assert variance == 0.0;
        SquareSign(sqrt(variance));
      }
    }
    sqrt(variance)
  }

  /** calculate_proporation_confidence_interval: p-hat -/+ v * sqrt(p-hat q-hat / n). */
  function ProportionConfidenceInterval(sqrt: real -> real, norm: Distribution, x: int, n: int, alpha: real, test: Test)
    : (ci: Interval)
    requires IsSqrt(sqrt) && 0 < n && 0 <= x <= n
    ensures (ci.min + ci.max) / 2.0 == (x as real) / (n as real)
    ensures 0.0 <= ZScoreTableValue(norm, alpha, test) ==> ci.min <= ci.max
  {
    var pHat := (x as real) / (n as real);
    var standardError := ProportionStandardError(sqrt, x, n);
    var e := ZScoreTableValue(norm, alpha, test) * standardError;
    assert 0.0 <= ZScoreTableValue(norm, alpha, test) ==> 0.0 <= e;
    Interval(pHat - e, pHat + e)
  }

  /** The proportion interval in terms of the table value v. When 0 < x < n it
      fails to reject p0 exactly when x/n lies within v of p0, measured in the
      interval's own standard error sqrt(p-hat q-hat / n). When x is 0 or n that
      standard error is zero, and only p0 == x/n is not rejected. */
  lemma ProportionIntervalByTableValue(sqrt: real -> real, norm: Distribution, p0: real, x: int, n: int, alpha: real, test: Test)
    requires IsSqrt(sqrt) && 0 < n && 0 <= x <= n
    ensures var pHat := (x as real) / (n as real);
            var ci := ProportionConfidenceInterval(sqrt, norm, x, n, alpha, test);
            var fails := ConfidenceIntervalTestMethod(p0, ci.min, ci.max) == FailToRejectH0;
            (0 < x < n ==>
               (fails <==> Abs((pHat - p0) / ProportionStandardError(sqrt, x, n)) <= ZScoreTableValue(norm, alpha, test)))
            && (x == 0 || x == n ==> (fails <==> p0 == pHat))
  {
    var pHat := (x as real) / (n as real);
    var se := ProportionStandardError(sqrt, x, n);
    var v := ZScoreTableValue(norm, alpha, test);
    var ci := ProportionConfidenceInterval(sqrt, norm, x, n, alpha, test);
    assert ci.min == pHat - v * se && ci.max == pHat + v * se;
    if 0 < x < n {
      WithinMarginIff(pHat, p0, se, v);
    } else {
      assert v * se == 0.0;
    }
  }

  /** The proportion interval is not dual to the proportion test: the interval
      uses sqrt(p-hat q-hat / n) where the statistic divides by sqrt(p0 (1 - p0) / n).
      For p0 = 0.1, x = 2, n = 5 at alpha = 0.05, two-tailed, z = sqrt 5 lies beyond
      any table value below 2, so the critical-value procedure rejects, while 0.1
      still lies in the interval 0.4 -/+ v sqrt(0.048). */
  lemma ProportionIntervalDisagreesWithCriticalValue(sqrt: real -> real, norm: Distribution)
    requires IsSqrt(sqrt) && SymmetricContinuous(norm) && 1.9 < norm.ppf(0.975) < 2.0
    ensures var z := CalculateProportion(sqrt, norm, 0.1, 2, 5, TwoTailed).statistic;
            var ci := ProportionConfidenceInterval(sqrt, norm, 2, 5, 0.05, TwoTailed);
            CriticalValueTestMethod(norm, z, 0.05, TwoTailed) == RejectH0
            && ConfidenceIntervalTestMethod(0.1, ci.min, ci.max) == FailToRejectH0
  {
    var v := ZScoreTableValue(norm, 0.05, TwoTailed);
    assert v == norm.ppf(0.975);
    // The statistic: z * z == 0.09 / 0.018 == 5.
    var s := sqrt(0.1 * (1.0 - 0.1) / 5.0);
    assert s * s == 0.018;
    SqrtPositive(sqrt, 0.018);
    var z := (2.0 / 5.0 - 0.1) / s;
    assert z == CalculateProportion(sqrt, norm, 0.1, 2, 5, TwoTailed).statistic;
    assert z * s == 0.3;
    assert z * z * (s * s) == 0.09;
    assert z * z == 5.0;
    RootAbove(z, 2.0);
    CriticalValueByTableValue(norm, z, 0.05, TwoTailed);
    // The interval: its standard error exceeds 0.16, so 0.3 / se < 1.875 < v.
    var se := ProportionStandardError(sqrt, 2, 5);
    assert se * se == 0.048;
    RootAbove(se, 0.16);
    MultiplyStrict(0.16, se, 1.875);
    QuotientOrder(0.3, 1.875 * se, se);
    assert 1.875 * se / se == 1.875;
    ProportionIntervalByTableValue(sqrt, norm, 0.1, 2, 5, 0.05, TwoTailed);
  }

  /** The interval fixture x = 33, n = 362: whatever the normal table gives, as
      long as its value is at least 0.9 (it is about 1.96 two-tailed and 1.64
      one-tailed at alpha = 0.05), p0 = 0.1 lies inside the interval and the
      interval procedure fails to reject it in every tail direction. */
  lemma ProportionIntervalFixture(sqrt: real -> real, norm: Distribution, test: Test)
    requires IsSqrt(sqrt) && 0.9 <= ZScoreTableValue(norm, 0.05, test)
    ensures var ci := ProportionConfidenceInterval(sqrt, norm, 33, 362, 0.05, test);
            ConfidenceIntervalTestMethod(0.1, ci.min, ci.max) == FailToRejectH0
  {
    var pHat := 33.0 / 362.0;
    var se := ProportionStandardError(sqrt, 33, 362);
    assert se * se == 10857.0 / 47437928.0;
    RootAbove(se, 0.01);
    // |x/n - 0.1| == 3.2 / 362 < 0.009 < 0.9 * se
    MultiplyStrict(0.01, se, 0.9);
    QuotientOrder(3.2 / 362.0, 0.9 * se, se);
    assert 0.9 * se / se == 0.9;
    QuotientSign(3.2 / 362.0, se);
    assert (pHat - 0.1) / se == -((3.2 / 362.0) / se);
    ProportionIntervalByTableValue(sqrt, norm, 0.1, 33, 362, 0.05, test);
  }

  // ---------------------------------------------------------------------------
  // Mean test
  // ---------------------------------------------------------------------------

  /** calculate_mean: z = (x-bar - mu) / (sigma / sqrt(n)). */
  function CalculateMean(sqrt: real -> real, norm: Distribution, xBar: real, mu: real, sigma: real, n: int, test: Test)
    : (r: TestResult)
    requires IsSqrt(sqrt) && 0.0 < sigma && 0 < n
    ensures r.statistic < 0.0 <==> xBar < mu
    ensures r.statistic == 0.0 <==> xBar == mu
    ensures r.pValue == PValueTableValue(norm, r.statistic, test)
  {
    SqrtPositive(sqrt, n as real);
    QuotientSign(sigma, sqrt(n as real));
    QuotientSign(xBar - mu, sigma / sqrt(n as real));
    var z := (xBar - mu) / (sigma / sqrt(n as real));
    TestResult(z, PValueTableValue(norm, z, test))
  }

  /** calculate_mean_confidence_interval: x-bar -/+ v * sigma / sqrt(n). */
  function MeanConfidenceInterval(sqrt: real -> real, norm: Distribution, xBar: real, sigma: real, n: int, alpha: real, test: Test)
    : (ci: Interval)
    requires IsSqrt(sqrt) && 0 < n
    ensures (ci.min + ci.max) / 2.0 == xBar
    ensures 0.0 <= ZScoreTableValue(norm, alpha, test) && 0.0 <= sigma ==> ci.min <= ci.max
  {
    SqrtPositive(sqrt, n as real);
    var standardError := sigma / sqrt(n as real);
    QuotientSign(sigma, sqrt(n as real));
    var e := ZScoreTableValue(norm, alpha, test) * standardError;
    assert 0.0 <= ZScoreTableValue(norm, alpha, test) && 0.0 <= standardError ==> 0.0 <= e;
    Interval(xBar - e, xBar + e)
  }

  /** The critical-value procedure in terms of the table value v: two-tailed it
      rejects exactly when |z| >= v, left-tailed when z <= -v, right-tailed when z >= v. */
  lemma CriticalValueByTableValue(norm: Distribution, z: real, alpha: real, test: Test)
    requires SymmetricContinuous(norm) && 0.0 < alpha < 1.0
    ensures var v := ZScoreTableValue(norm, alpha, test);
            var rejects := CriticalValueTestMethod(norm, z, alpha, test) == RejectH0;
            (test == TwoTailed ==> (rejects <==> v <= Abs(z)))
            && (test == LeftTailed ==> (rejects <==> z <= -v))
            && (test == RightTailed ==> (rejects <==> v <= z))
  {
    ZScoreTableValueIsCriticalMagnitude(norm, alpha, test);
    assert 1.0 - (1.0 - alpha / 2.0) == alpha / 2.0;
  }

  /** The mean interval fails to reject mu exactly when the mean statistic for mu
      is at most the table value in size. */
  lemma MeanIntervalByTableValue(sqrt: real -> real, norm: Distribution, xBar: real, mu: real, sigma: real, n: int, alpha: real, test: Test)
    requires IsSqrt(sqrt) && 0.0 < sigma && 0 < n
    ensures var z := CalculateMean(sqrt, norm, xBar, mu, sigma, n, test).statistic;
            var ci := MeanConfidenceInterval(sqrt, norm, xBar, sigma, n, alpha, test);
            ConfidenceIntervalTestMethod(mu, ci.min, ci.max) == FailToRejectH0
            <==> Abs(z) <= ZScoreTableValue(norm, alpha, test)
  {
    SqrtPositive(sqrt, n as real);
    QuotientSign(sigma, sqrt(n as real));
    var se := sigma / sqrt(n as real);
    var v := ZScoreTableValue(norm, alpha, test);
    var ci := MeanConfidenceInterval(sqrt, norm, xBar, sigma, n, alpha, test);
    assert ci.min == xBar - v * se && ci.max == xBar + v * se;
    WithinMarginIff(xBar, mu, se, v);
  }

  /** For a two-tailed mean test the interval procedure and the critical-value
      procedure agree, except when |z| is exactly the table value: there the
      inclusive interval fails to reject while the inclusive critical region rejects. */
  lemma MeanIntervalAgreesWithCriticalValue(sqrt: real -> real, norm: Distribution, xBar: real, mu: real, sigma: real, n: int, alpha: real)
    requires IsSqrt(sqrt) && SymmetricContinuous(norm) && 0.0 < alpha < 1.0 && 0.0 < sigma && 0 < n
    ensures var z := CalculateMean(sqrt, norm, xBar, mu, sigma, n, TwoTailed).statistic;
            var ci := MeanConfidenceInterval(sqrt, norm, xBar, sigma, n, alpha, TwoTailed);
            var v := ZScoreTableValue(norm, alpha, TwoTailed);
            var byInterval := ConfidenceIntervalTestMethod(mu, ci.min, ci.max);
            var byCriticalValue := CriticalValueTestMethod(norm, z, alpha, TwoTailed);
            (Abs(z) != v ==> byInterval == byCriticalValue)
            && (Abs(z) == v ==> byInterval == FailToRejectH0 && byCriticalValue == RejectH0)
  {
    var z := CalculateMean(sqrt, norm, xBar, mu, sigma, n, TwoTailed).statistic;
    MeanIntervalByTableValue(sqrt, norm, xBar, mu, sigma, n, alpha, TwoTailed);
    CriticalValueByTableValue(norm, z, alpha, TwoTailed);
  }

  /** For a one-tailed test the interval is still symmetric around x-bar, built
      from the (1 - alpha)-quantile, so the interval procedure rejects on both
      sides: exactly when |z| exceeds the table value, whichever the direction.
      The critical-value procedure then disagrees on the side opposite the tail. */
  lemma OneTailedIntervalRejectsOnBothSides(sqrt: real -> real, norm: Distribution, xBar: real, mu: real, sigma: real, n: int, alpha: real, test: Test)
    requires IsSqrt(sqrt) && SymmetricContinuous(norm) && 0.0 < alpha <= 0.5 && 0.0 < sigma && 0 < n
    requires test != TwoTailed
    ensures var z := CalculateMean(sqrt, norm, xBar, mu, sigma, n, test).statistic;
            var ci := MeanConfidenceInterval(sqrt, norm, xBar, sigma, n, alpha, test);
            var v := ZScoreTableValue(norm, alpha, test);
            var byInterval := ConfidenceIntervalTestMethod(mu, ci.min, ci.max);
            var byCriticalValue := CriticalValueTestMethod(norm, z, alpha, test);
            (byInterval == RejectH0 <==> v < Abs(z))
            && ((test == LeftTailed && v < z) || (test == RightTailed && z < -v) ==>
                  byInterval == RejectH0 && byCriticalValue == FailToRejectH0)
  {
    var z := CalculateMean(sqrt, norm, xBar, mu, sigma, n, test).statistic;
    MeanIntervalByTableValue(sqrt, norm, xBar, mu, sigma, n, alpha, test);
    CriticalValueByTableValue(norm, z, alpha, test);
    ZScoreTableValueIsCriticalMagnitude(norm, alpha, test);
  }
}
