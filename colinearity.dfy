/**
 * The `CoLinearity` class of analysis.py: Pearson's correlation coefficient r of
 * two samples, computed from the sums n, sum x, sum y, sum x^2, sum y^2 and
 * sum x*y. The value is the one before the source's final `round(r, 3)`.
 */
module CoLinearity {
  import opened Model
  import opened Numerics

  /** np.sum */
  function Sum(s: seq<real>): real
    decreases |s|
  {
    if |s| == 0 then 0.0 else Sum(s[..|s| - 1]) + s[|s| - 1]
  }

  /** x ** 2, element by element */
  function Squares(s: seq<real>): (r: seq<real>)
    ensures |r| == |s|
  {
    seq(|s|, i requires 0 <= i < |s| => s[i] * s[i])
  }

  /** (x ** 2).sum() */
  function SumSquares(s: seq<real>): real {
    Sum(Squares(s))
  }

  /** x_1 * y_1 for each pair of zip(x, y), which stops at the shorter sample */
  function Products(x: seq<real>, y: seq<real>): (r: seq<real>)
    ensures |r| == if |x| <= |y| then |x| else |y|
  {
    seq(if |x| <= |y| then |x| else |y|, i requires 0 <= i < |x| && 0 <= i < |y| => x[i] * y[i])
  }

  function SumOfProducts(x: seq<real>, y: seq<real>): real {
    Sum(Products(x, y))
  }

  /** sum_x_y: accumulates x_1 * y_1 over zip(x, y). */
  method SumXY(x: seq<real>, y: seq<real>) returns (xy: real)
    ensures xy == SumOfProducts(x, y)
  {
    xy := 0.0;
    var pairs := if |x| <= |y| then |x| else |y|;
    for i := 0 to pairs
      invariant xy == Sum(Products(x, y)[..i])
    {
      assert Products(x, y)[..i + 1][..i] == Products(x, y)[..i];
      xy := xy + x[i] * y[i];
    }
    assert Products(x, y)[..pairs] == Products(x, y);
  }

  /** n * sum x^2 - (sum x)^2, which is n^2 times the sample's variance. */
  function Spread(s: seq<real>): real {
    (|s| as real) * SumSquares(s) - Sum(s) * Sum(s)
  }

  /** The sample is not constant: the denominator factor for it is non-zero. */
  predicate NonDegenerate(s: seq<real>) {
    0.0 < Spread(s)
  }

  /** n * sum xy - sum x * sum y */
  function Covariation(x: seq<real>, y: seq<real>): real {
    (|x| as real) * SumOfProducts(x, y) - Sum(x) * Sum(y)
  }

  /** sqrt(n * sum x^2 - (sum x)^2) * sqrt(n * sum y^2 - (sum y)^2) */
  function Scale(sqrt: real -> real, x: seq<real>, y: seq<real>): (d: real)
    requires IsSqrt(sqrt) && NonDegenerate(x) && NonDegenerate(y)
    ensures 0.0 < d
  {
    SqrtPositive(sqrt, Spread(x));
    SqrtPositive(sqrt, Spread(y));
    sqrt(Spread(x)) * sqrt(Spread(y))
  }

  /** Pearson's r of two equal-length, non-constant samples: negative, zero or
      positive as the samples co-vary negatively, not at all or positively. */
  function Pearson(sqrt: real -> real, x: seq<real>, y: seq<real>): (r: real)
    requires IsSqrt(sqrt) && |x| == |y| && NonDegenerate(x) && NonDegenerate(y)
    ensures r < 0.0 <==> Covariation(x, y) < 0.0
    ensures r == 0.0 <==> Covariation(x, y) == 0.0
  {
    QuotientSign(Covariation(x, y), Scale(sqrt, x, y));
    Covariation(x, y) / Scale(sqrt, x, y)
  }

  /** calculate_r: raises ValueError exactly when the samples differ in length,
      and otherwise returns Pearson's r. */
  method CalculateR(sqrt: real -> real, x: seq<real>, y: seq<real>) returns (r: Result<real>)
    requires IsSqrt(sqrt)
    requires |x| == |y| ==> NonDegenerate(x) && NonDegenerate(y)
    ensures r.Err? <==> |x| != |y|
    ensures r.Ok? ==> r.value == Pearson(sqrt, x, y)
  {
    var n1 := |x|;
    var n2 := |y|;
    if n1 != n2 {
      return Err(ValueError("The number of samples for each list must be equal"));
    }
    var n := n1 as real;
    var xy := SumXY(x, y);
    var numerator := n * xy - Sum(x) * Sum(y);
    var denominator := Scale(sqrt, x, y);
    assert numerator == Covariation(x, y);
    r := Ok(numerator / denominator);
  }

  /** r is symmetric in its two samples. */
  lemma PearsonSymmetric(sqrt: real -> real, x: seq<real>, y: seq<real>)
    requires IsSqrt(sqrt) && |x| == |y| && NonDegenerate(x) && NonDegenerate(y)
    ensures Pearson(sqrt, x, y) == Pearson(sqrt, y, x)
  {
    assert Products(x, y) == Products(y, x);
    assert Covariation(x, y) == Covariation(y, x);
    assert Scale(sqrt, x, y) == Scale(sqrt, y, x);
  }

  /** A non-constant sample is perfectly correlated with itself. */
  lemma PearsonSelfIsOne(sqrt: real -> real, x: seq<real>)
    requires IsSqrt(sqrt) && NonDegenerate(x)
    ensures Pearson(sqrt, x, x) == 1.0
  {
    assert Products(x, x) == Squares(x);
    assert Covariation(x, x) == Spread(x);
    assert Scale(sqrt, x, x) == sqrt(Spread(x)) * sqrt(Spread(x)) == Spread(x);
  }
}
