# Hypothesis-testing engine of fast_food_nutrition, in Dafny

This project models the statistics core of the fast_food_nutrition analysis
package (`fast_food_nutrition/fast_food_nutrition/analysis.py`) and proves
properties of it:

- **Outliers** (`outliers.dfy`): the interquartile-range filter. It starts from an
  all-True row mask, ANDs into it, column by column, the mask of values within
  `[Q1 - 1.5 IQR, Q3 + 1.5 IQR]`, and selects the rows the mask keeps. The mask
  is an `array<bool>` updated in place by a loop over the columns and a loop over
  the rows. A column the menu lacks ends the filter with a `KeyError`.
- **ZTest** (`ztest.dfy`): the proportion and mean Z-tests, the tail policy of
  the normal p-value, the critical-value, p-value and confidence-interval
  decision procedures, and the proportion and mean confidence intervals.
- **TTest** (`ttest.dfy`): the one-sample and two-sample t-tests, the degrees of
  freedom `A`, `B` and `df`, the tail policy over Student-t, the two-sample
  confidence interval and the significance test of a correlation coefficient.
- **ChiSquaredTest** (`chi_squared_test.dfy`): the variance test.
- **CoLinearity** (`colinearity.dfy`): Pearson's r from the sums of the samples.
  The `sum_x_y` accumulation is a method with a loop.

`model.dfy` holds the shared vocabulary (the `Test` and
`HypothesisTestConclusion` enumerations of `fast_food_nutrition/fast_food_nutrition/model.py`,
the result pairs and the `ValueError`/`KeyError` exceptions).
`numerics.dfy` holds what the engine takes from its numeric libraries.
`math.sqrt`, scipy's `norm`, `t` and `chi2`, and pandas' `quantile` are passed
in as function values. What the engine relies on is stated as predicates over
those values, which the contracts require. `sqrt` is the non-negative square
root. A distribution has a strictly increasing cdf in (0, 1), `sf = 1 - cdf`,
and `ppf` inverts `cdf`. The normal and Student-t distributions are also
symmetric. The same module defines, once, the reference tail policy
(`TailPValue`: lower tail, upper tail, or twice the smaller tail) and the
rejection region of a critical value. It proves that a statistic lies in the
rejection region exactly when its p-value is at most alpha.

Every value in the model is the value before the source's final `round`.

Behaviour of the code that the model reproduces as written, and states in lemmas:

- `TTest.df` squares `A` in both denominator terms. `B` enters only the
  numerator. The result is the Welch-Satterthwaite value only when `A^2 = B^2`,
  and it is not symmetric in the two samples
  (`TTest.DfIsWelchSatterthwaiteIffEqualSquares`,
  `TTest.DfSwapSymmetricIffEqualSquares`).
- For a one-tailed test the confidence intervals are still symmetric around the
  estimate, built from the `1 - alpha` quantile. For the mean interval this is
  proved to make the interval procedure reject on both sides, so that it
  disagrees with the one-tailed critical-value procedure on the side opposite
  the tail (`ZTest.OneTailedIntervalRejectsOnBothSides`).
- For a two-tailed mean test the interval and critical-value procedures agree,
  except when `|z|` equals the table value exactly. Both bounds are inclusive
  in both procedures, so there the interval fails to reject while the critical
  value rejects (`ZTest.MeanIntervalAgreesWithCriticalValue`).
- The proportion interval is not dual to the proportion test. The interval's
  standard error is `sqrt(p-hat q-hat / n)`, while the statistic divides by
  `sqrt(p0 (1 - p0) / n)`. The two procedures can therefore disagree even
  two-tailed. For p0 = 0.1, x = 2, n = 5 at alpha = 0.05, z = sqrt 5 and the
  critical value rejects, while 0.1 lies inside the interval
  (`ZTest.ProportionIntervalDisagreesWithCriticalValue`). For the fixture
  x = 33, n = 362, p0 = 0.1 lies inside the interval in every tail direction
  (`ZTest.ProportionIntervalFixture`).
- `TTest.calculate_r` returns the coefficient `r` itself, not the t statistic,
  beside the p-value of that t.
- The Z p-value takes the two-tailed value through `|z|`, while the t p-value
  branches on the sign of `t`. Over a symmetric distribution both equal the
  reference policy (`TTest.PValueAgreesWithZTestPolicy`).
- The test file calls `calculate_proportion_hypothesis_critical_value_test_method`
  and `calculate_proportion_hypothesis_p_value_test_method`. The class defines
  `calculate_hypothesis_critical_value_test_method` and
  `calculate_p_value_test_method`. `ZTest.DecisionFixtures` states those
  expectations against the methods as they are named in the class.

## Model

| member | source | states |
|---|---|---|
| Numerics.RejectionRegionIffSmallPValue | fast_food_nutrition/fast_food_nutrition/analysis.py:59-89 | for a continuous distribution and 0 < alpha < 1, a statistic lies in the critical region of each tail direction exactly when its reference p-value is at most alpha |
| ZTest.PValueTableValue | fast_food_nutrition/fast_food_nutrition/analysis.py:151-159 | over a symmetric distribution the abs(z) formula is the reference tail policy (twice the smaller tail when two-tailed) and lies in [0, 1] |
| ZTest.CriticalValueTestMethod | fast_food_nutrition/fast_food_nutrition/analysis.py:59-82 | for a continuous distribution and 0 < alpha < 1, the critical-value procedure rejects exactly when the reference p-value of z is at most alpha |
| ZTest.ConfidenceIntervalTestMethod | fast_food_nutrition/fast_food_nutrition/analysis.py:106-110 | for an ordered interval it fails to reject exactly the values within half the interval's width of its centre, both ends included |
| ZTest.CalculateProportion | fast_food_nutrition/fast_food_nutrition/analysis.py:50-56 | z is negative, zero or positive exactly as x/n is below, at or above p0; the p-value is the table value for the requested tail |
| ZTest.ProportionFixture | fast_food_nutrition/tests/test_analysis.py:5-44 | for p0 = 0.1, x = 33, n = 362, z lies in (-0.565, -0.555), the same in all three directions, and two-tailed = 2 * left-tailed and right-tailed = 1 - left-tailed (0.575, 0.288, 0.712) |
| ZTest.CriticalValueAgreesWithPValue | fast_food_nutrition/fast_food_nutrition/analysis.py:59-89 | the critical-value procedure reaches the same conclusion as the p-value procedure in every tail direction |
| ZTest.DecisionFixtures | fast_food_nutrition/tests/test_analysis.py:47-91 | with cdf(-0.56) near 0.288, z = -0.56 at alpha = 0.05 fails to reject in every direction, and so does p = 0.288 |
| ZTest.ZScoreTableValue | fast_food_nutrition/fast_food_nutrition/analysis.py:142-148 | the table value is the quantile at 1 - alpha/2 for two-tailed and at 1 - alpha for both one-tailed tests |
| ZTest.ZScoreTableValueIsCriticalMagnitude | fast_food_nutrition/fast_food_nutrition/analysis.py:142-148 | the table value is the size of the critical values: -/+v two-tailed, v right-tailed, -v left-tailed; it is non-negative when two-tailed or alpha <= 1/2 |
| ZTest.ProportionStandardError | fast_food_nutrition/fast_food_nutrition/analysis.py:98 | sqrt(p-hat q-hat / n) squares to p-hat q-hat / n, is non-negative, and is zero exactly when x is 0 or n |
| ZTest.ProportionConfidenceInterval | fast_food_nutrition/fast_food_nutrition/analysis.py:92-103 | the interval is centred on x/n, and min <= max whenever the table value is non-negative; its half-width is pinned by ZTest.ProportionIntervalByTableValue |
| ZTest.ProportionIntervalByTableValue | fast_food_nutrition/fast_food_nutrition/analysis.py:92-110 | for 0 < x < n the interval fails to reject p0 exactly when abs(x/n - p0) / sqrt(p-hat q-hat / n) is at most the table value; for x = 0 or x = n it fails to reject only p0 = x/n |
| ZTest.ProportionIntervalDisagreesWithCriticalValue | fast_food_nutrition/fast_food_nutrition/analysis.py:50-103 | with a normal table value between 1.9 and 2 at alpha = 0.05, p0 = 0.1, x = 2, n = 5, two-tailed: the critical-value procedure rejects while the proportion interval contains 0.1 |
| ZTest.ProportionIntervalFixture | fast_food_nutrition/fast_food_nutrition/analysis.py:92-110 | for x = 33, n = 362, alpha = 0.05 and any table value of at least 0.9, the interval contains p0 = 0.1, so the interval procedure fails to reject in every tail direction |
| ZTest.CalculateMean | fast_food_nutrition/fast_food_nutrition/analysis.py:113-123 | z has the sign of x-bar - mu; the p-value is the table value for the requested tail |
| ZTest.MeanConfidenceInterval | fast_food_nutrition/fast_food_nutrition/analysis.py:126-139 | the interval is centred on x-bar, and min <= max whenever the table value and sigma are non-negative |
| ZTest.CriticalValueByTableValue | fast_food_nutrition/fast_food_nutrition/analysis.py:59-82 | in terms of the table value v, the critical-value procedure rejects exactly when abs(z) >= v (two-tailed), z <= -v (left-tailed) or z >= v (right-tailed) |
| ZTest.MeanIntervalByTableValue | fast_food_nutrition/fast_food_nutrition/analysis.py:106-139 | the mean interval fails to reject mu exactly when the mean statistic for mu is at most the table value in size |
| ZTest.MeanIntervalAgreesWithCriticalValue | fast_food_nutrition/fast_food_nutrition/analysis.py:106-110 | two-tailed: the inclusive interval decision equals the critical-value decision unless abs(z) equals the table value, where the interval fails to reject and the critical value rejects |
| ZTest.OneTailedIntervalRejectsOnBothSides | fast_food_nutrition/fast_food_nutrition/analysis.py:142-148 | one-tailed: the interval decision rejects exactly when abs(z) exceeds the table value, so it rejects where the one-tailed critical value does not |
| TTest.PValueTableValue | fast_food_nutrition/fast_food_nutrition/analysis.py:224-235 | over a symmetric distribution the sign branch is the reference tail policy (it doubles the smaller tail) and lies in [0, 1] |
| TTest.PValueAgreesWithZTestPolicy | fast_food_nutrition/fast_food_nutrition/analysis.py:224-235 | over the same symmetric distribution the t sign branch and the Z abs(z) formula give the same p-value |
| TTest.Calculate | fast_food_nutrition/fast_food_nutrition/analysis.py:164-174 | t has the sign of x-bar - mu0; the p-value is the right tail of Student-t with n - 1 degrees of freedom |
| TTest.A | fast_food_nutrition/fast_food_nutrition/analysis.py:212-213 | A is non-negative and zero exactly when sigma_1 is zero |
| TTest.B | fast_food_nutrition/fast_food_nutrition/analysis.py:216-217 | B is non-negative and zero exactly when sigma_2 is zero |
| TTest.DfDenominator | fast_food_nutrition/fast_food_nutrition/analysis.py:221 | the denominator of df is positive when A is non-zero |
| TTest.Df | fast_food_nutrition/fast_food_nutrition/analysis.py:220-221 | df is non-negative, and positive exactly when A + B is non-zero |
| TTest.DfIsWelchSatterthwaiteIffEqualSquares | fast_food_nutrition/fast_food_nutrition/analysis.py:220-221 | df as written equals the Welch-Satterthwaite degrees of freedom exactly when A^2 = B^2 |
| TTest.DfSwapSymmetricIffEqualSquares | fast_food_nutrition/fast_food_nutrition/analysis.py:220-221 | swapping the two samples keeps df exactly when A^2 = B^2 |
| TTest.StandardError | fast_food_nutrition/fast_food_nutrition/analysis.py:187-188 | sqrt(A + B) is positive and squares to A + B |
| TTest.CalculateTwoMeans | fast_food_nutrition/fast_food_nutrition/analysis.py:177-194 | t has the sign of (x-bar_1 - x-bar_2) - (mu_1 - mu_2); the p-value is the t table value at the degrees of freedom of df |
| TTest.SwappingSamplesNegatesT | fast_food_nutrition/fast_food_nutrition/analysis.py:187-188 | swapping the two samples together with their means negates t |
| TTest.TScoreTableValue | fast_food_nutrition/fast_food_nutrition/analysis.py:259-265 | the table value is the Student-t quantile at 1 - alpha/2 for two-tailed and at 1 - alpha for both one-tailed tests |
| TTest.TScoreTableValueNonNegative | fast_food_nutrition/fast_food_nutrition/analysis.py:259-265 | the table value is non-negative when two-tailed or alpha <= 1/2 |
| TTest.TwoMeansConfidenceInterval | fast_food_nutrition/fast_food_nutrition/analysis.py:238-256 | the interval is centred on x-bar_1 - x-bar_2, and min <= max whenever the table value is non-negative |
| TTest.TwoMeansIntervalMatchesStatistic | fast_food_nutrition/fast_food_nutrition/analysis.py:238-256 | mu_1 - mu_2 lies in the interval exactly when the two-sample abs(t) for those means is at most the table value |
| TTest.CorrelationT | fast_food_nutrition/fast_food_nutrition/analysis.py:202 | t = r / sqrt((1 - r^2)/(n - 2)) has the sign of r |
| TTest.CalculateR | fast_food_nutrition/fast_food_nutrition/analysis.py:197-209 | ValueError exactly when the lengths differ; otherwise the pair is Pearson's r and the t p-value of that r at n - 2 degrees of freedom |
| ChiSquaredTest.Statistic | fast_food_nutrition/fast_food_nutrition/analysis.py:272 | the statistic is non-negative and zero exactly when s is zero |
| ChiSquaredTest.Calculate | fast_food_nutrition/fast_food_nutrition/analysis.py:270-280 | the statistic is non-negative, zero exactly when s is; the p-value is the right tail of chi-squared with n - 1 degrees of freedom and lies in [0, 1] |
| ChiSquaredTest.StatisticComparesVariances | fast_food_nutrition/fast_food_nutrition/analysis.py:272 | the statistic equals n - 1 exactly when s^2 = sigma_0^2, and exceeds it exactly when s^2 > sigma_0^2 |
| ChiSquaredTest.StatisticIncreasesWithSpread | fast_food_nutrition/fast_food_nutrition/analysis.py:272 | a larger abs(s) gives a strictly larger statistic |
| CoLinearity.SumXY | fast_food_nutrition/fast_food_nutrition/analysis.py:298-304 | the loop over zip(x, y) returns the sum of the pairwise products |
| CoLinearity.Scale | fast_food_nutrition/fast_food_nutrition/analysis.py:315-316 | the denominator of r is positive for non-constant samples |
| CoLinearity.CalculateR | fast_food_nutrition/fast_food_nutrition/analysis.py:285-318 | ValueError exactly when the lengths differ; otherwise Pearson's r |
| CoLinearity.Pearson | fast_food_nutrition/fast_food_nutrition/analysis.py:314-316 | r is negative, zero or positive exactly as the co-variation n * sum xy - sum x * sum y is |
| CoLinearity.PearsonSymmetric | fast_food_nutrition/fast_food_nutrition/analysis.py:314-316 | r(x, y) = r(y, x) |
| CoLinearity.PearsonSelfIsOne | fast_food_nutrition/fast_food_nutrition/analysis.py:314-316 | r(x, x) = 1 for a non-constant sample |
| Outliers.RetentionBounds | fast_food_nutrition/fast_food_nutrition/analysis.py:16-20 | the bounds contain [Q1, Q3] when Q1 <= Q3, are ordered exactly when Q1 <= Q3, and share the quartiles' midpoint |
| Outliers.RemoveOutliers | fast_food_nutrition/fast_food_nutrition/analysis.py:15-22 | one flag per value, and every value between Q1 and Q3 is kept |
| Outliers.KeptBy | fast_food_nutrition/fast_food_nutrition/analysis.py:24-27 | a row survives the AND over the columns, applied in turn, exactly when every column's mask keeps it |
| Outliers.Mask | fast_food_nutrition/fast_food_nutrition/analysis.py:24-27 | one flag per row, True exactly when every listed column keeps the row |
| Outliers.AndInto | fast_food_nutrition/fast_food_nutrition/analysis.py:27 | each row's flag becomes its old flag AND the column's flag, in place |
| Outliers.MaskDependsOnlyOnColumnSet | fast_food_nutrition/fast_food_nutrition/analysis.py:26-27 | column lists with the same members give the same mask, whatever their order or repetitions |
| Outliers.Positions | fast_food_nutrition/fast_food_nutrition/analysis.py:29 | the selected row numbers are ascending, all selected by the mask, and include every selected row |
| Outliers.Select | fast_food_nutrition/fast_food_nutrition/analysis.py:29 | the result has the same columns, row k being the k-th selected input row, in order, with every selected row present |
| Outliers.KeptRowsAreWithinEveryColumnsBounds | fast_food_nutrition/fast_food_nutrition/analysis.py:14-29 | a row is kept exactly when, in every listed column, its value lies within that column's bounds, both inclusive |
| Outliers.NoColumnsKeepsEveryRow | fast_food_nutrition/fast_food_nutrition/analysis.py:24-29 | an empty column list returns the menu unchanged |
| Outliers.FilterOutliers | fast_food_nutrition/fast_food_nutrition/analysis.py:14-29 | KeyError naming the first missing column exactly when a column is missing; otherwise the selection of the rows every column keeps |

## Left out

- `ZTest.calculate` (the legacy right-tailed test) raises to the real power `level_of_significance`; real exponentiation has no counterpart here.
- Rounding: `round(., 2)` and `round(., 3)` on binary doubles are not modelled; every value is the one before rounding, and `TTest.CalculateR` tests the unrounded r.
- Floating point: all arithmetic is on exact reals, so NaN, infinities and overflow do not arise.
- The numeric internals of `math.sqrt`, scipy's `norm`, `t`, `chi2` and pandas' `quantile` are parameters; only the properties listed above are assumed of them. The fixture lemmas therefore check the relations between the expected values, not the table values themselves.
- ZTest.ProportionConfidenceInterval, ZTest.ProportionStandardError: require 0 <= x <= n. Outside that range p-hat q-hat is negative and `math.sqrt` raises ValueError, which the model does not return.
- ZTest.ProportionIntervalDisagreesWithCriticalValue, ZTest.ProportionIntervalFixture: the normal table value is assumed to lie in a range (1.9 to 2 two-tailed, at least 0.9), since scipy's quantile function is a parameter.
- ZTest.CalculateMean: requires sigma > 0; with sigma = 0 the source divides by zero.
- TTest.Calculate and ChiSquaredTest.Calculate: require n > 1; with n = 1 there are no degrees of freedom and scipy returns NaN.
- TTest.CalculateTwoMeans, TTest.TwoMeansConfidenceInterval, TTest.Df: require sigma_1 != 0 and n_1, n_2 > 1, where the source divides by zero.
- TTest.CalculateR: requires n > 2, non-constant samples and |r| < 1 when the lengths agree; otherwise the source divides by zero or takes the root of a negative number.
- CoLinearity.CalculateR: requires non-constant samples when the lengths agree; a constant sample makes the denominator zero. The bound |r| <= 1 (Cauchy-Schwarz) is not proved.
- Outliers.FilterOutliers: pandas index alignment in `menu[mask]` is not modelled; rows are numbered 0 .. height - 1. Columns are numeric.
- `etl.py` (CSV loading), `viz.py` (plots), `util.py` (paths) and the constants of `model.py` other than `Test` and `HypothesisTestConclusion` are not part of this model; `HypothesisTestMethod` only names the procedures.
