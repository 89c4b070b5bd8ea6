/** When a circuit counts as unhealthy: the rounded error percentage of the window against
    the configured threshold.  `real` stands for `float64`. */
module Health {

  function Truncate(x: real): int { if x >= 0.0 then x.Floor else -((-x).Floor) }

  /** `metricExchange.ErrorPercent` on the two sums it reads. */
  function ErrorPercent(errors: int, requests: int): int {
    var percent := if requests > 0 then errors as real / requests as real * 100.0 else 0.0;
    Truncate(percent + 0.5)
  }

  predicate IsHealthy(errors: int, requests: int, threshold: int) {
    ErrorPercent(errors, requests) < threshold
  }

  /** The percentage as the rational it is, without division. */
  lemma PercentScaled(errors: nat, requests: int, percent: real)
    requires requests > 0 && percent == errors as real / requests as real * 100.0
    ensures percent * requests as real == 100.0 * errors as real && percent >= 0.0
  {
  }

  lemma ScaleOrder(a: real, b: real, r: real)
    requires r > 0.0
    ensures a <= b <==> a * r <= b * r
  {
  }

  /** The whole trip test in integers. */
  lemma UnhealthyIff(errors: nat, requests: int, threshold: int)
    requires requests > 0
    ensures !IsHealthy(errors, requests, threshold) <==> 200 * errors + requests >= 2 * requests * threshold
  {
    var percent := errors as real / requests as real * 100.0;
    var r := requests as real;
    PercentScaled(errors, requests, percent);
    assert ErrorPercent(errors, requests) >= threshold <==> threshold as real <= percent + 0.5;
    ScaleOrder(threshold as real, percent + 0.5, r);
    assert (percent + 0.5) * r == percent * r + 0.5 * r;
    assert threshold as real * r == (threshold * requests) as real;
  }

  lemma NoRequestsIsZeroPercent(errors: int)
    ensures ErrorPercent(errors, 0) == 0
  {
  }

  lemma PercentInRange(errors: nat, requests: nat)
    requires errors <= requests
    ensures 0 <= ErrorPercent(errors, requests) <= 100
  {
  }

  predicate Nearest(p: int, errors: int, requests: int) {
    (2 * p - 1) * requests <= 200 * errors < (2 * p + 1) * requests
  }

  /** Round half up: the percentage is the integer nearest to the exact one, the larger of
      two equally near. */
  lemma PercentIsNearest(errors: nat, requests: int)
    requires requests > 0
    ensures Nearest(ErrorPercent(errors, requests), errors, requests)
  {
    var p := ErrorPercent(errors, requests);
    UnhealthyIff(errors, requests, p);
    UnhealthyIff(errors, requests, p + 1);
    assert 2 * requests * p == 2 * p * requests && 2 * requests * (p + 1) == 2 * p * requests + 2 * requests;
  }

  /** One more error report never lowers the percentage. */
  lemma ErrorNeverLowers(errors: nat, requests: nat)
    requires errors <= requests
    ensures ErrorPercent(errors, requests) <= ErrorPercent(errors + 1, requests + 1)
  {
    var p := ErrorPercent(errors, requests);
    PercentInRange(errors, requests);
    UnhealthyIff(errors + 1, requests + 1, p);
    if requests > 0 {
      UnhealthyIff(errors, requests, p);
      assert 2 * (requests + 1) * p == 2 * requests * p + 2 * p;
    } else {
      NoRequestsIsZeroPercent(errors);
    }
  }

  /** One more report that is not an error never raises it. */
  lemma SuccessNeverRaises(errors: nat, requests: nat)
    requires errors <= requests
    ensures ErrorPercent(errors, requests + 1) <= ErrorPercent(errors, requests)
  {
    var p := ErrorPercent(errors, requests + 1);
    PercentInRange(errors, requests + 1);
    UnhealthyIff(errors, requests + 1, p);
    if requests > 0 {
      UnhealthyIff(errors, requests, p);
      assert 2 * (requests + 1) * p == 2 * requests * p + 2 * p;
      if p == 0 {
        PercentInRange(errors, requests);
      }
    } else {
      NoRequestsIsZeroPercent(errors);
    }
  }
}
