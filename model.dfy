/**
 * The vocabulary shared by the hypothesis-testing engine: the tail directions and
 * conclusions of the `Test` and `HypothesisTestConclusion` enumerations, and the
 * shapes of the values the engine hands back to its callers.
 */
module Model {

  /** Which side(s) of the sampling distribution form the rejection region. */
  datatype Test = RightTailed | LeftTailed | TwoTailed

  /** The outcome of each of the three decision procedures. */
  datatype HypothesisTestConclusion = RejectH0 | FailToRejectH0

  /** A (statistic, p-value) pair, as a test returns it before rounding. */
  datatype TestResult = TestResult(statistic: real, pValue: real)

  /** A (min, max) confidence interval, before rounding. */
  datatype Interval = Interval(min: real, max: real)

  /** The exceptions the engine raises on its error paths. */
  datatype Error = ValueError(message: string) | KeyError(key: string)

  datatype Result<T> = Ok(value: T) | Err(error: Error)
}
