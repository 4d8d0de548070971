/**
  How RunTest derives the runner's global time limit from the test suite's
  optional `Timeout` property, which is given in milliseconds.
 */
module SuiteTimeout {

  import opened Wrappers

  /** The limit used when the suite has no Timeout property. */
  const DefaultTimeoutSeconds: real := 10.0
  /** How much shorter than the suite's own limit the runner's limit is. */
  const SafetyMarginSeconds: real := 0.1
  /** The limit is never set below this. */
  const MinTimeoutSeconds: real := 0.01

  function Max(a: real, b: real): (m: real)
    ensures m >= a && m >= b && (m == a || m == b)
  {
    if a >= b then a else b
  }

  /**
    The runner's global limit in seconds. With no property it is the default;
    with a property of `ms` milliseconds it is ms/1000 less the safety margin,
    but never below the minimum.
   */
  function TimeoutSeconds(timeoutMs: Option<int>): (r: real)
    ensures r >= MinTimeoutSeconds
    ensures timeoutMs.None? ==> r == DefaultTimeoutSeconds
    ensures timeoutMs.Some? ==>
      var budget := timeoutMs.value as real / 1000.0;
      && (budget - SafetyMarginSeconds >= MinTimeoutSeconds ==> r == budget - SafetyMarginSeconds)
      && (budget - SafetyMarginSeconds < MinTimeoutSeconds ==> r == MinTimeoutSeconds)
  {
    match timeoutMs
    case None => DefaultTimeoutSeconds
    case Some(ms) => Max(MinTimeoutSeconds, ms as real / 1000.0 - SafetyMarginSeconds)
  }

  /** A longer suite limit never gives the runner a shorter one. */
  lemma TimeoutMonotonic(ms1: int, ms2: int)
    requires ms1 <= ms2
    ensures TimeoutSeconds(Some(ms1)) <= TimeoutSeconds(Some(ms2))
  {
  }

  /**
    Whenever the suite's limit leaves room for the margin (at least 110 ms), the
    runner's limit ends strictly before the suite's own, by exactly the margin.
   */
  lemma TimeoutEndsBeforeSuiteLimit(ms: int)
    requires ms >= 110
    ensures TimeoutSeconds(Some(ms)) + SafetyMarginSeconds == ms as real / 1000.0
    ensures TimeoutSeconds(Some(ms)) < ms as real / 1000.0
  {
  }

  /**
    For any suite limit above 10 ms the runner's limit ends strictly before
    the suite's own, even where the 0.01 s floor applies.
   */
  lemma TimeoutBelowSuiteLimit(ms: int)
    requires ms > 10
    ensures TimeoutSeconds(Some(ms)) < ms as real / 1000.0
  {
  }

  /**
    For a suite limit of 10 ms or less the 0.01 s floor is at least the
    suite's own limit, so the safety margin is lost.
   */
  lemma TimeoutFloorReachesSuiteLimit(ms: int)
    requires ms <= 10
    ensures TimeoutSeconds(Some(ms)) >= ms as real / 1000.0
  {
  }
}
