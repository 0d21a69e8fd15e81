/** Request counters of a path, the classes of failure, and the rates computed from the counters. */
module Requests {
  import opened Arithmetic
  import opened Rounding

  datatype FailureKind = Timeout | Network | DnsResponse | InvalidResponse | Internal | Other

  datatype RequestCounts = RequestCounts(
    attempted: int, successful: int, failed: int, timeouts: int, nonTimeoutFailures: int)

  datatype FailureCounts = FailureCounts(
    timeout: int, network: int, dnsResponse: int, invalidResponse: int, internal: int, other: int)
  {
    function Of(kind: FailureKind): int {
      match kind
      case Timeout => timeout
      case Network => network
      case DnsResponse => dnsResponse
      case InvalidResponse => invalidResponse
      case Internal => internal
      case Other => other
    }

    function Total(): int {
      timeout + network + dnsResponse + invalidResponse + internal + other
    }
  }

  datatype RequestRates = RequestRates(success: real, failure: real, timeout: real)

  function Percent(part: int, whole: int): real
    requires whole > 0
  {
    Round6(part as real / whole as real * 100.0)
  }

  function CalculateRequestRates(requests: RequestCounts): RequestRates {
    if requests.attempted <= 0 then RequestRates(0.0, 0.0, 0.0)
    else RequestRates(
           Percent(requests.successful, requests.attempted),
           Percent(requests.failed, requests.attempted),
           Percent(requests.timeouts, requests.attempted))
  }

  /** Every attempted query is either a success or a failure, and timeouts are failures. */
  predicate Conserved(requests: RequestCounts) {
    && requests.successful >= 0 && requests.timeouts >= 0
    && requests.successful + requests.failed == requests.attempted
    && requests.timeouts + requests.nonTimeoutFailures == requests.failed
    && requests.nonTimeoutFailures >= 0
  }

  lemma RatioMonotone(a: int, b: int, whole: int)
    requires a <= b && whole > 0
    ensures a as real / whole as real <= b as real / whole as real
  {
    DivideMonotone(a as real, b as real, whole as real);
  }

  lemma PercentMonotone(a: int, b: int, whole: int)
    requires a <= b && whole > 0
    ensures Percent(a, whole) <= Percent(b, whole)
  {
    RatioMonotone(a, b, whole);
    RoundMonotone(a as real / whole as real * 100.0, b as real / whole as real * 100.0);
  }

  lemma PercentEnds(whole: int)
    requires whole > 0
    ensures Percent(0, whole) == 0.0 && Percent(whole, whole) == 100.0
  {
    assert 0 as real / whole as real == 0.0;
    assert whole as real / whole as real == 1.0;
    assert OnGrid(100.0);
    RoundFixesGrid(100.0);
  }

  /** Rates of conserved counters are percentages, and the timeout rate is part of the failure rate. */
  lemma RatesOrdered(requests: RequestCounts)
    requires Conserved(requests)
    ensures var r := CalculateRequestRates(requests);
            0.0 <= r.timeout <= r.failure <= 100.0 && 0.0 <= r.success <= 100.0
  {
    if requests.attempted > 0 {
      PercentEnds(requests.attempted);
      PercentMonotone(0, requests.timeouts, requests.attempted);
      PercentMonotone(requests.timeouts, requests.failed, requests.attempted);
      PercentMonotone(requests.failed, requests.attempted, requests.attempted);
      PercentMonotone(0, requests.successful, requests.attempted);
      PercentMonotone(requests.successful, requests.attempted, requests.attempted);
    }
  }

  /** The rate is the percentage of the part, to half a millionth. */
  ghost predicate Measures(rate: real, part: int, whole: int) {
    OnGrid(rate) && Abs(rate * whole as real - 100.0 * part as real) <= 0.0000005 * whole as real
  }

  /** Each rate is about its own counter, and all are zero when nothing was attempted. */
  ghost predicate RatesMeasure(rates: RequestRates, requests: RequestCounts) {
    if requests.attempted <= 0 then rates.success == rates.failure == rates.timeout == 0.0
    else
      && Measures(rates.success, requests.successful, requests.attempted)
      && Measures(rates.failure, requests.failed, requests.attempted)
      && Measures(rates.timeout, requests.timeouts, requests.attempted)
  }

  lemma PercentMeasures(part: int, whole: int)
    requires whole > 0
    ensures Measures(Percent(part, whole), part, whole)
  {
    var share := part as real / whole as real;
    QuotientTimes(part as real, whole as real);
    PercentTimes(whole as real, share, part as real);
    RoundedMeasures(share * 100.0, part, whole);
  }

  lemma PercentTimes(w: real, share: real, p: real)
    requires share * w == p
    ensures Times(w, share * 100.0) == 100.0 * p
  {
  }

  lemma RoundedMeasures(x: real, part: int, whole: int)
    requires whole > 0 && Times(whole as real, x) == 100.0 * part as real
    ensures Measures(Round6(x), part, whole)
  {
    RoundFixesGrid(x);
    ScaledRounding(whole as real, x);
    NearMeasures(Round6(x), Times(whole as real, x), part, whole);
  }

  lemma NearMeasures(rate: real, exact: real, part: int, whole: int)
    requires OnGrid(rate) && exact == 100.0 * part as real
    requires Abs(Times(whole as real, rate) - exact) <= whole as real * 0.0000005
    ensures Measures(rate, part, whole)
  {
  }

  lemma CalculatedRates(requests: RequestCounts)
    ensures RatesMeasure(CalculateRequestRates(requests), requests)
  {
    if requests.attempted > 0 {
      PercentMeasures(requests.successful, requests.attempted);
      PercentMeasures(requests.failed, requests.attempted);
      PercentMeasures(requests.timeouts, requests.attempted);
    }
  }

  /**
   Success and failure rate add up to 100, or to 100.000001. The excess appears exactly when the
   success ratio falls halfway between two reportable values, which is a test on the counters.
   */
  lemma RatesComplement(requests: RequestCounts)
    requires Conserved(requests) && requests.attempted > 0
    ensures var r := CalculateRequestRates(requests);
            r.success + r.failure
            == if (200000000 * requests.successful) % (2 * requests.attempted) == requests.attempted
               then 100.000001 else 100.0
  {
    var s, f, a := requests.successful, requests.failed, requests.attempted;
    var x := s as real / a as real * 100.0;
    assert s as real / a as real + f as real / a as real == 1.0 by {
      assert s as real + f as real == a as real;
      SharesOfOne(s as real, f as real, a as real);
    }
    RatioMonotone(0, s, a);
    RatioMonotone(0, f, a);
    assert 0 as real / a as real == 0.0;
    assert f as real / a as real * 100.0 == 100.0 - x;
    assert OnGrid(100.0);
    RoundComplement(x, 100.0);
    HalfwayCounters(s, a);
  }

  /** The excess does occur: with one success among 512 queries. */
  lemma ExcessOccurs()
    ensures var requests := RequestCounts(512, 1, 511, 0, 511);
            var r := CalculateRequestRates(requests);
            Conserved(requests) && r.success + r.failure == 100.000001
  {
    RatesComplement(RequestCounts(512, 1, 511, 0, 511));
  }

  lemma SharesOfOne(s: real, f: real, a: real)
    requires a > 0.0 && s + f == a
    ensures s / a + f / a == 1.0
  {
    var p, q := s / a, f / a;
    assert p * a == s && q * a == f;
    assert (p + q - 1.0) * a == 0.0;
  }

  lemma HalfwayCounters(s: int, a: int)
    requires 0 <= s && 0 < a
    ensures Halfway(s as real / a as real * 100.0) <==> (200000000 * s) % (2 * a) == a
  {
    var n, d := 200000000 * s, 2 * a;
    assert n == d * (n / d) + n % d;
    HalfwayRemainder(s, a, n / d, n % d);
  }

  lemma HalfwayRemainder(s: int, a: int, q: int, r: int)
    requires 0 < a && 0 <= r < 2 * a && 200000000 * s == 2 * a * q + r
    ensures Halfway(s as real / a as real * 100.0) <==> r == a
  {
    var d := (2 * a) as real;
    ScaledQuotient(s, a, q, r);
    var excess := r as real / d;
    FractionBounds(r as real, d);
    FloorOfSum(q, excess);
    assert excess * d == r as real;
    if r == a {
      CancelFactor(excess, 0.5, d);
    }
  }

  lemma FloorOfSum(q: int, f: real)
    requires 0.0 <= f < 1.0
    ensures (q as real + f).Floor == q
  {
  }

  lemma ScaledQuotient(s: int, a: int, q: int, r: int)
    requires 0 < a && 200000000 * s == 2 * a * q + r
    ensures s as real / a as real * 100.0 * 1000000.0 == q as real + r as real / (2 * a) as real
  {
    var x := s as real / a as real;
    var d := (2 * a) as real;
    var e := r as real / d;
    assert x * a as real == s as real && e * d == r as real;
    assert 200000000.0 * s as real == d * q as real + r as real;
    assert x * d == 2.0 * s as real;
    CancelFactor(100000000.0 * x, q as real + e, d);
  }
}
