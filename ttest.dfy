/**
 * The `TTest` class of analysis.py: the one-sample and two-sample t-tests, the
 * correlation significance test, the degrees of freedom of the two-sample test,
 * the tail policy over Student-t and the two-sample confidence interval.
 * `student` maps degrees of freedom to scipy's Student-t distribution.
 * Every result is the value before the source's final `round`.
 */
module TTest {
  import opened Model
  import opened Numerics
  import ZTest
  import CoLinearity

  // ---------------------------------------------------------------------------
  // Tail policy over Student-t
  // ---------------------------------------------------------------------------

  /** get_p_value_table_value: the two-tailed p-value doubles the lower tail for a
      negative t and the upper tail otherwise. For a symmetric distribution that is
      the smaller tail, so the branch is the reference tail policy. */
  function PValueTableValue(student: real -> Distribution, t: real, df: real, test: Test): (p: real)
    ensures SymmetricContinuous(student(df)) ==> p == TailPValue(student(df), t, test) && 0.0 <= p <= 1.0
  {
    var p := match test
      case RightTailed => student(df).sf(t)
      case LeftTailed => student(df).cdf(t)
      case TwoTailed => if t < 0.0 then 2.0 * student(df).cdf(t) else 2.0 * student(df).sf(t);
    assert SymmetricContinuous(student(df)) ==> p == TailPValue(student(df), t, test) && 0.0 <= p <= 1.0 by {
      if SymmetricContinuous(student(df)) {
        assert student(df).sf(t) == 1.0 - student(df).cdf(t);
        CdfAtLeastHalf(student(df), t);
      }
    }
    p
  }

  /** The explicit branch of the t-test and the |z| formula of the Z-test give the
      same p-value over the same symmetric distribution. */
  lemma PValueAgreesWithZTestPolicy(student: real -> Distribution, t: real, df: real, test: Test)
    requires SymmetricContinuous(student(df))
    ensures PValueTableValue(student, t, df, test) == ZTest.PValueTableValue(student(df), t, test)
  {
  }

  // ---------------------------------------------------------------------------
  // One-sample test
  // ---------------------------------------------------------------------------

  /** calculate: t = (x-bar - mu0) / (s / sqrt(n)) with n - 1 degrees of freedom,
      reported with its right-tailed p-value. */
  function Calculate(sqrt: real -> real, student: real -> Distribution, xBar: real, mu0: real, n: int, s: real)
    : (r: TestResult)
    requires IsSqrt(sqrt) && 1 < n && 0.0 < s
    ensures r.statistic < 0.0 <==> xBar < mu0
    ensures r.statistic == 0.0 <==> xBar == mu0
    ensures r.pValue == TailPValue(student((n - 1) as real), r.statistic, RightTailed)
  {
    SqrtPositive(sqrt, n as real);
    QuotientSign(s, sqrt(n as real));
    QuotientSign(xBar - mu0, s / sqrt(n as real));
    var t := (xBar - mu0) / (s / sqrt(n as real));
    var df := n - 1;
    TestResult(t, student(df as real).sf(t))
  }

  // ---------------------------------------------------------------------------
  // Two-sample test
  // ---------------------------------------------------------------------------

  /** A: sigma_1^2 / n_1 */
  function A(sigma1: real, n1: int): (a: real)
    requires 0 < n1
    ensures 0.0 <= a
    ensures a == 0.0 <==> sigma1 == 0.0
  {
    SquareSign(sigma1);
    QuotientSign(sigma1 * sigma1, n1 as real);
    sigma1 * sigma1 / (n1 as real)
  }

  /** B: sigma_2^2 / n_2 */
  function B(sigma2: real, n2: int): (b: real)
    requires 0 < n2
    ensures 0.0 <= b
    ensures b == 0.0 <==> sigma2 == 0.0
  {
    SquareSign(sigma2);
    QuotientSign(sigma2 * sigma2, n2 as real);
    sigma2 * sigma2 / (n2 as real)
  }

  /** Both denominator terms of Df: A^2 / (n_1 - 1) + A^2 / (n_2 - 1). */
  function DfDenominator(a: real, n1: int, n2: int): (d: real)
    requires 1 < n1 && 1 < n2 && a != 0.0
    ensures 0.0 < d
  {
    SquareSign(a);
    QuotientSign(a * a, (n1 - 1) as real);
    QuotientSign(a * a, (n2 - 1) as real);
    a * a / ((n1 - 1) as real) + a * a / ((n2 - 1) as real)
  }

  /** df as written: (A + B)^2 / (A^2 / (n_1 - 1) + A^2 / (n_2 - 1)).
      Both denominator terms square A. */
  function Df(a: real, b: real, n1: int, n2: int): (df: real)
    requires 1 < n1 && 1 < n2 && a != 0.0
    ensures 0.0 <= df
    ensures 0.0 < df <==> a + b != 0.0
  {
    SquareSign(a + b);
    QuotientSign((a + b) * (a + b), DfDenominator(a, n1, n2));
    (a + b) * (a + b) / DfDenominator(a, n1, n2)
  }

  /** The Welch-Satterthwaite denominator: each sample's own term squared. */
  function WelchDenominator(a: real, b: real, n1: int, n2: int): (d: real)
    requires 1 < n1 && 1 < n2 && a != 0.0
    ensures 0.0 < d
  {
    SquareSign(a);
    SquareSign(b);
    QuotientSign(a * a, (n1 - 1) as real);
    QuotientSign(b * b, (n2 - 1) as real);
    a * a / ((n1 - 1) as real) + b * b / ((n2 - 1) as real)
  }

  /** The Welch-Satterthwaite degrees of freedom, the reference df is compared with. */
  function WelchSatterthwaite(a: real, b: real, n1: int, n2: int): real
    requires 1 < n1 && 1 < n2 && a != 0.0
  {
    (a + b) * (a + b) / WelchDenominator(a, b, n1, n2)
  }

  /** Because B appears only in the numerator, df equals the Welch-Satterthwaite
      value exactly when A^2 == B^2. */
  lemma DfIsWelchSatterthwaiteIffEqualSquares(a: real, b: real, n1: int, n2: int)
    requires 1 < n1 && 1 < n2 && a != 0.0 && a + b != 0.0
    ensures Df(a, b, n1, n2) == WelchSatterthwaite(a, b, n1, n2) <==> a * a == b * b
  {
    var m2 := (n2 - 1) as real;
    SquareSign(a + b);
    assert 0.0 < (a + b) * (a + b);
    DivisorInjective((a + b) * (a + b), DfDenominator(a, n1, n2), WelchDenominator(a, b, n1, n2));
    QuotientInjective(a * a, b * b, m2);
  }

  /** The denominator of df is A^2 times 1 / (n_1 - 1) + 1 / (n_2 - 1). */
  lemma DfDenominatorFactors(a: real, n1: int, n2: int)
    requires 1 < n1 && 1 < n2 && a != 0.0
    ensures DfDenominator(a, n1, n2) == a * a * (1.0 / ((n1 - 1) as real) + 1.0 / ((n2 - 1) as real))
  {
    var m1, m2 := (n1 - 1) as real, (n2 - 1) as real;
    assert a * a / m1 == a * a * (1.0 / m1);
    assert a * a / m2 == a * a * (1.0 / m2);
  }

  /** As written, df is not symmetric in the two samples: swapping them (A with
      B, n_1 with n_2) keeps df exactly when A^2 == B^2. */
  lemma DfSwapSymmetricIffEqualSquares(a: real, b: real, n1: int, n2: int)
    requires 1 < n1 && 1 < n2 && a != 0.0 && b != 0.0 && a + b != 0.0
    ensures Df(a, b, n1, n2) == Df(b, a, n2, n1) <==> a * a == b * b
  {
    var k := 1.0 / ((n1 - 1) as real) + 1.0 / ((n2 - 1) as real);
    DfDenominatorFactors(a, n1, n2);
    DfDenominatorFactors(b, n2, n1);
    var numerator := (a + b) * (a + b);
    assert (b + a) * (b + a) == numerator;
    SquareSign(a + b);
    assert Df(a, b, n1, n2) == numerator / DfDenominator(a, n1, n2);
    assert Df(b, a, n2, n1) == numerator / DfDenominator(b, n2, n1);
    DivisorInjective(numerator, DfDenominator(a, n1, n2), DfDenominator(b, n2, n1));
    ProductInjective(a * a, b * b, k);
  }

  /** sqrt(A + B), the standard error of the difference of the two means. */
  function StandardError(sqrt: real -> real, sigma1: real, sigma2: real, n1: int, n2: int): (se: real)
    requires IsSqrt(sqrt) && 0 < n1 && 0 < n2 && sigma1 != 0.0
    ensures 0.0 < se
    ensures se * se == A(sigma1, n1) + B(sigma2, n2)
  {
    SqrtPositive(sqrt, A(sigma1, n1) + B(sigma2, n2));
    sqrt(A(sigma1, n1) + B(sigma2, n2))
  }

  /** calculate_two_means: t = ((x-bar_1 - x-bar_2) - (mu_1 - mu_2)) / sqrt(A + B),
      with the degrees of freedom of Df. */
  function CalculateTwoMeans(sqrt: real -> real, student: real -> Distribution,
                             xBar1: real, xBar2: real, mu1: real, mu2: real,
                             sigma1: real, sigma2: real, n1: int, n2: int, test: Test)
    : (r: TestResult)
    requires IsSqrt(sqrt) && 1 < n1 && 1 < n2 && sigma1 != 0.0
    ensures r.statistic < 0.0 <==> xBar1 - xBar2 < mu1 - mu2
    ensures r.statistic == 0.0 <==> xBar1 - xBar2 == mu1 - mu2
    ensures r.pValue == PValueTableValue(student, r.statistic, Df(A(sigma1, n1), B(sigma2, n2), n1, n2), test)
  {
    var se := StandardError(sqrt, sigma1, sigma2, n1, n2);
    QuotientSign((xBar1 - xBar2) - (mu1 - mu2), se);
    var t := ((xBar1 - xBar2) - (mu1 - mu2)) / se;
    var df := Df(A(sigma1, n1), B(sigma2, n2), n1, n2);
    TestResult(t, PValueTableValue(student, t, df, test))
  }

  /** Swapping the two samples, together with their means mu, negates t. */
  lemma SwappingSamplesNegatesT(sqrt: real -> real, student: real -> Distribution,
                                xBar1: real, xBar2: real, mu1: real, mu2: real,
                                sigma1: real, sigma2: real, n1: int, n2: int, test: Test)
    requires IsSqrt(sqrt) && 1 < n1 && 1 < n2 && sigma1 != 0.0 && sigma2 != 0.0
    ensures CalculateTwoMeans(sqrt, student, xBar2, xBar1, mu2, mu1, sigma2, sigma1, n2, n1, test).statistic
            == -CalculateTwoMeans(sqrt, student, xBar1, xBar2, mu1, mu2, sigma1, sigma2, n1, n2, test).statistic
  {
    var se := StandardError(sqrt, sigma1, sigma2, n1, n2);
    assert StandardError(sqrt, sigma2, sigma1, n2, n1) == se;
    var d := (xBar1 - xBar2) - (mu1 - mu2);
    assert (xBar2 - xBar1) - (mu2 - mu1) == -d;
    assert -d / se == -(d / se);
  }

  // ---------------------------------------------------------------------------
  // Two-sample confidence interval
  // ---------------------------------------------------------------------------

  /** get_t_score_table_value: the Student-t quantile at 1 - alpha/2 for a
      two-tailed test and at 1 - alpha for either one-tailed test. */
  function TScoreTableValue(student: real -> Distribution, alpha: real, df: real, test: Test): (v: real)
    ensures Continuous(student(df)) && 0.0 < alpha < 1.0 ==>
              student(df).cdf(v) == if test == TwoTailed then 1.0 - alpha / 2.0 else 1.0 - alpha
  {
    var probability := if test == TwoTailed then 1.0 - alpha / 2.0 else 1.0 - alpha;
    student(df).ppf(probability)
  }

  /** The table value is non-negative for a two-tailed test, and for a one-tailed
      test whenever alpha is at most one half. */
  lemma TScoreTableValueNonNegative(student: real -> Distribution, alpha: real, df: real, test: Test)
    requires SymmetricContinuous(student(df)) && 0.0 < alpha < 1.0
    requires test == TwoTailed || alpha <= 0.5
    ensures 0.0 <= TScoreTableValue(student, alpha, df, test)
  {
    if test == TwoTailed {
      UpperQuantileNonNegative(student(df), 1.0 - alpha / 2.0);
    } else {
      UpperQuantileNonNegative(student(df), 1.0 - alpha);
    }
  }

  /** calculate_two_means_confidence_interval: (x-bar_1 - x-bar_2) -/+ v * sqrt(A + B),
      with v taken at the degrees of freedom of Df. */
  function TwoMeansConfidenceInterval(sqrt: real -> real, student: real -> Distribution,
                                      xBar1: real, xBar2: real, sigma1: real, sigma2: real,
                                      n1: int, n2: int, alpha: real, test: Test)
    : (ci: Interval)
    requires IsSqrt(sqrt) && 1 < n1 && 1 < n2 && sigma1 != 0.0
    ensures (ci.min + ci.max) / 2.0 == xBar1 - xBar2
    ensures (0.0 <= TScoreTableValue(student, alpha, Df(A(sigma1, n1), B(sigma2, n2), n1, n2), test)
             ==> ci.min <= ci.max)
  {
    var df := Df(A(sigma1, n1), B(sigma2, n2), n1, n2);
    var tScoreTable := TScoreTableValue(student, alpha, df, test);
    var e := tScoreTable * StandardError(sqrt, sigma1, sigma2, n1, n2);
    assert 0.0 <= tScoreTable ==> 0.0 <= e;
    var xBarDif := xBar1 - xBar2;
    Interval(xBarDif - e, xBarDif + e)
  }

  /** The difference of the null means lies in the interval exactly when the
      two-sample statistic for those means is at most the table value in size. */
  lemma TwoMeansIntervalMatchesStatistic(sqrt: real -> real, student: real -> Distribution,
                                         xBar1: real, xBar2: real, mu1: real, mu2: real,
                                         sigma1: real, sigma2: real, n1: int, n2: int,
                                         alpha: real, test: Test)
    requires IsSqrt(sqrt) && 1 < n1 && 1 < n2 && sigma1 != 0.0
    ensures var t := CalculateTwoMeans(sqrt, student, xBar1, xBar2, mu1, mu2, sigma1, sigma2, n1, n2, test).statistic;
            var ci := TwoMeansConfidenceInterval(sqrt, student, xBar1, xBar2, sigma1, sigma2, n1, n2, alpha, test);
            var df := Df(A(sigma1, n1), B(sigma2, n2), n1, n2);
            ZTest.ConfidenceIntervalTestMethod(mu1 - mu2, ci.min, ci.max) == FailToRejectH0
            <==> Abs(t) <= TScoreTableValue(student, alpha, df, test)
  {
    var se := StandardError(sqrt, sigma1, sigma2, n1, n2);
    var table := TScoreTableValue(student, alpha, Df(A(sigma1, n1), B(sigma2, n2), n1, n2), test);
    var ci := TwoMeansConfidenceInterval(sqrt, student, xBar1, xBar2, sigma1, sigma2, n1, n2, alpha, test);
    assert ci.min == (xBar1 - xBar2) - table * se && ci.max == (xBar1 - xBar2) + table * se;
    WithinMarginIff(xBar1 - xBar2, mu1 - mu2, se, table);
  }

  // ---------------------------------------------------------------------------
  // Correlation significance
  // ---------------------------------------------------------------------------

  /** t = r / sqrt((1 - r^2) / (n - 2)), which has the sign of r. */
  function CorrelationT(sqrt: real -> real, r: real, n: int): (t: real)
    requires IsSqrt(sqrt) && 2 < n && -1.0 < r < 1.0
    ensures t < 0.0 <==> r < 0.0
    ensures t == 0.0 <==> r == 0.0
  {
    assert 0.0 < 1.0 - r * r;
    SqrtPositive(sqrt, (1.0 - r * r) / ((n - 2) as real));
    QuotientSign(r, sqrt((1.0 - r * r) / ((n - 2) as real)));
    r / sqrt((1.0 - r * r) / ((n - 2) as real))
  }

  /** calculate_r: propagates the ValueError of CoLinearity.CalculateR, tests r
      with n - 2 degrees of freedom, and returns r itself (not t) beside the p-value. */
  method CalculateR(sqrt: real -> real, student: real -> Distribution, x: seq<real>, y: seq<real>, test: Test)
    returns (result: Result<TestResult>)
    requires IsSqrt(sqrt)
    requires |x| == |y| ==>
               2 < |x| && CoLinearity.NonDegenerate(x) && CoLinearity.NonDegenerate(y)
               && -1.0 < CoLinearity.Pearson(sqrt, x, y) < 1.0
    ensures result.Err? <==> |x| != |y|
    ensures result.Ok? ==>
              var r := CoLinearity.Pearson(sqrt, x, y);
              result.value == TestResult(r, PValueTableValue(student, CorrelationT(sqrt, r, |x|), (|x| - 2) as real, test))
  {
    var rOrError := CoLinearity.CalculateR(sqrt, x, y);
    if rOrError.Err? {
      return Err(rOrError.error);
    }
    var r := rOrError.value;
    var n := |x|;
    var t := CorrelationT(sqrt, r, n);
    var df := n - 2;
    var pValue := PValueTableValue(student, t, df as real, test);
    result := Ok(TestResult(r, pValue));
  }
}
