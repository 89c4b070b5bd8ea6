/** Percentile and mean of a sorted snapshot of durations, in the integer and floating
    arithmetic of `rolling.Timing`: durations are `int64` nanoseconds, results are
    `uint32` milliseconds, and a percentile rank is computed in floating point, for which
    `real` stands. */
module OrderStatistics {
  import opened Common

  predicate Sorted(s: seq<int>) { forall i, j :: 0 <= i < j < |s| ==> s[i] <= s[j] }

  function ToUint32(x: int): int { x % TWO_TO_THE_32 }

  /** Integer division rounds toward zero in Go. */
  function Quotient(x: int, y: nat): int
    requires y > 0
  {
    if x >= 0 then x / y else -((-x) / y)
  }

  function Ceil(x: real): int { -((-x).Floor) }

  function Ordinal(length: nat, percentile: real): int {
    if percentile == 0.0 && length > 0 then 1
    else Ceil(percentile / 100.0 * length as real)
  }

  /** The rank is the least one that is positive and covers the percentage asked for. */
  lemma OrdinalIsLeastRank(length: nat, percentile: real, k: int)
    requires length > 0 && 0.0 <= percentile <= 100.0
    ensures Ordinal(length, percentile) <= k <==> k >= 1 && percentile * length as real <= 100.0 * k as real
  {
    var exact := percentile / 100.0 * length as real;
    ScaledByHundred(percentile, length as real);
    if percentile > 0.0 {
      PositiveProduct(percentile, length as real);
    }
    assert Ceil(exact) <= k <==> exact <= k as real;
  }

  lemma ScaledByHundred(x: real, y: real)
    ensures x * y == 100.0 * (x / 100.0 * y)
  {
  }

  lemma PositiveProduct(x: real, y: real)
    requires x > 0.0 && y > 0.0
    ensures x * y > 0.0
  {
  }

  lemma OrdinalInRange(length: nat, percentile: real)
    requires length > 0 && 0.0 <= percentile <= 100.0
    ensures 1 <= Ordinal(length, percentile) <= length
  {
    OrdinalIsLeastRank(length, percentile, 0);
    assert percentile * length as real <= 100.0 * length as real;
    OrdinalIsLeastRank(length, percentile, length);
  }

  lemma OrdinalMonotone(length: nat, p: real, q: real)
    requires length > 0 && 0.0 <= p <= q <= 100.0
    ensures Ordinal(length, p) <= Ordinal(length, q)
  {
  }

  // ---------- percentile ----------

  function Selected(s: seq<int>, percentile: real): int
    requires s != [] && 0.0 <= percentile <= 100.0
  {
    OrdinalInRange(|s|, percentile);
    s[Ordinal(|s|, percentile) - 1]
  }

  function PercentileOf(s: seq<int>, percentile: real): int
    requires 0.0 <= percentile <= 100.0
  {
    if s == [] then 0 else ToUint32(Quotient(Selected(s, percentile), MILLISECOND))
  }

  function CountAtMost(s: seq<int>, x: int): nat {
    if s == [] then 0 else CountAtMost(s[..|s| - 1], x) + if s[|s| - 1] <= x then 1 else 0
  }

  lemma {:induction false} CountOfSorted(s: seq<int>, x: int, i: nat)
    requires Sorted(s) && i < |s|
    ensures s[i] <= x <==> i < CountAtMost(s, x)
    ensures CountAtMost(s, x) <= |s|
  {
    var init := s[..|s| - 1];
    CountBound(init, x);
    if i < |init| {
      CountOfSorted(init, x, i);
      if s[|s| - 1] <= x {
        CountOfSorted(init, x, |init| - 1);
      }
    } else if |init| > 0 {
      CountOfSorted(init, x, |init| - 1);
    }
  }

  lemma {:induction false} CountBound(s: seq<int>, x: int)
    ensures CountAtMost(s, x) <= |s|
  {
    if s != [] {
      CountBound(s[..|s| - 1], x);
    }
  }

  /** Nearest rank: the selected duration is at most `x` exactly when at least the
      percentage asked for, and at least one, of the durations are at most `x`. */
  lemma SelectedIsNearestRank(s: seq<int>, percentile: real, x: int)
    requires Sorted(s) && s != [] && 0.0 <= percentile <= 100.0
    ensures var count := CountAtMost(s, x);
            Selected(s, percentile) <= x <==> count >= 1 && percentile * |s| as real <= 100.0 * count as real
  {
    OrdinalInRange(|s|, percentile);
    CountOfSorted(s, x, Ordinal(|s|, percentile) - 1);
    OrdinalIsLeastRank(|s|, percentile, CountAtMost(s, x));
  }

  lemma MillisecondsAtMost(duration: nat, m: nat)
    ensures Quotient(duration, MILLISECOND) <= m <==> duration <= (m + 1) * MILLISECOND - 1
  {
  }

  /** The percentile as it is reported, in whole milliseconds: it is at most `m` exactly when
      enough of the durations, and at least one, are shorter than `m + 1` milliseconds. */
  lemma PercentileIsNearestRank(s: seq<int>, percentile: real, m: nat)
    requires Sorted(s) && s != [] && 0.0 <= percentile <= 100.0
    requires s[0] >= 0 && s[|s| - 1] / MILLISECOND < TWO_TO_THE_32
    ensures var count := CountAtMost(s, (m + 1) * MILLISECOND - 1);
            PercentileOf(s, percentile) <= m <==> count >= 1 && percentile * |s| as real <= 100.0 * count as real
  {
    OrdinalInRange(|s|, percentile);
    var selected := Selected(s, percentile);
    assert 0 <= s[0] <= selected <= s[|s| - 1];
    FitsUint32(selected, s[|s| - 1]);
    MillisecondsAtMost(selected, m);
    SelectedIsNearestRank(s, percentile, (m + 1) * MILLISECOND - 1);
  }

  lemma FitsUint32(duration: nat, longest: nat)
    requires duration <= longest && longest / MILLISECOND < TWO_TO_THE_32
    ensures ToUint32(Quotient(duration, MILLISECOND)) == Quotient(duration, MILLISECOND)
  {
  }

  /** Without durations, both statistics are zero. */
  lemma NoDurationsNoStatistics(percentile: real)
    requires 0.0 <= percentile <= 100.0
    ensures PercentileOf([], percentile) == 0 == MeanOf([])
  {
  }

  // ---------- mean ----------

  /** The running total, an `int64` that wraps around. */
  function WrappedTotal(s: seq<int>): int {
    if s == [] then 0 else WrapInt64(WrappedTotal(s[..|s| - 1]) + s[|s| - 1])
  }

  function Total(s: seq<int>): int {
    if s == [] then 0 else Total(s[..|s| - 1]) + s[|s| - 1]
  }

  function Average(s: seq<int>): int
    requires s != []
  {
    Quotient(WrappedTotal(s), |s|)
  }

  /** The conversion to `uint32` comes before the division to milliseconds. */
  function MeanOf(s: seq<int>): int {
    if s == [] then 0 else ToUint32(Average(s)) / MILLISECOND
  }

  lemma {:induction false} WrappedTotalIsTotal(s: seq<int>)
    requires (forall i :: 0 <= i < |s| ==> s[i] >= 0) && Total(s) < TWO_TO_THE_63
    ensures WrappedTotal(s) == Total(s) >= 0
  {
    if s != [] {
      TotalNonnegative(s[..|s| - 1]);
      WrappedTotalIsTotal(s[..|s| - 1]);
    }
  }

  lemma {:induction false} TotalNonnegative(s: seq<int>)
    requires forall i :: 0 <= i < |s| ==> s[i] >= 0
    ensures Total(s) >= 0
  {
    if s != [] {
      TotalNonnegative(s[..|s| - 1]);
    }
  }

  /** The mean comes out right exactly when the average is below 2^32 nanoseconds, about
      4.3 seconds; from there on the conversion has already thrown the top bits away. */
  lemma MeanIsExactIff(s: seq<int>)
    requires s != [] && (forall i :: 0 <= i < |s| ==> s[i] >= 0) && Total(s) < TWO_TO_THE_63
    ensures MeanOf(s) == Total(s) / |s| / MILLISECOND <==> Total(s) / |s| < TWO_TO_THE_32
  {
    AverageIsTrueAverage(s);
    ConversionLosesIff(Average(s));
  }

  lemma AverageIsTrueAverage(s: seq<int>)
    requires s != [] && (forall i :: 0 <= i < |s| ==> s[i] >= 0) && Total(s) < TWO_TO_THE_63
    ensures Average(s) == Total(s) / |s| >= 0
  {
    WrappedTotalIsTotal(s);
    QuotientNonnegative(Total(s), |s|);
  }

  lemma QuotientNonnegative(x: nat, y: nat)
    requires y > 0
    ensures x / y >= 0
  {
  }

  lemma ConversionLosesIff(average: nat)
    ensures average % TWO_TO_THE_32 / MILLISECOND == average / MILLISECOND <==> average < TWO_TO_THE_32
  {
  }

  /** Calls of five seconds each have a mean of 705 milliseconds. */
  lemma MeanOfFiveSeconds()
    ensures MeanOf([5_000_000_000, 5_000_000_000]) == 705
  {
    var s := [5_000_000_000, 5_000_000_000];
    assert s[..1] == [5_000_000_000] && s[..1][..0] == [];
    assert WrappedTotal(s[..1]) == 5_000_000_000;
    assert WrappedTotal(s) == 10_000_000_000;
  }

  lemma {:induction false} TotalBetween(s: seq<int>, lo: int, hi: int)
    requires forall i :: 0 <= i < |s| ==> lo <= s[i] <= hi
    ensures lo * |s| <= Total(s) <= hi * |s|
  {
    if s != [] {
      TotalBetween(s[..|s| - 1], lo, hi);
      assert lo * |s| == lo * (|s| - 1) + lo && hi * |s| == hi * (|s| - 1) + hi;
    }
  }

  lemma AverageBetween(total: int, n: nat, lo: nat, hi: nat)
    requires n > 0 && lo * n <= total <= hi * n
    ensures lo <= total / n <= hi
  {
    var q := total / n;
    assert q * n <= total < (q + 1) * n;
    if q < lo {
      ScaleUp(q + 1, lo, n);
    } else if q > hi {
      ScaleUp(hi + 1, q, n);
    }
  }

  lemma ScaleUp(a: int, b: int, n: nat)
    requires a <= b
    ensures a * n <= b * n
  {
  }

  /** On one snapshot the mean lies between the extreme percentiles, wherever the results
      fit: the longest in milliseconds and the average in nanoseconds below 2^32. */
  lemma MeanBetweenExtremes(s: seq<int>)
    requires Sorted(s) && s != [] && s[0] >= 0 && Total(s) < TWO_TO_THE_63
    requires s[|s| - 1] / MILLISECOND < TWO_TO_THE_32 && Total(s) / |s| < TWO_TO_THE_32
    ensures PercentileOf(s, 0.0) <= MeanOf(s) <= PercentileOf(s, 100.0)
  {
    var lo, hi := s[0], s[|s| - 1];
    assert forall i :: 0 <= i < |s| ==> lo <= s[i] <= hi;
    TotalBetween(s, lo, hi);
    AverageBetween(Total(s), |s|, lo, hi);
    AverageIsTrueAverage(s);
    SelectedExtremes(s);
    InMilliseconds(lo, Average(s), hi);
  }

  lemma SelectedExtremes(s: seq<int>)
    requires s != []
    ensures Selected(s, 0.0) == s[0] && Selected(s, 100.0) == s[|s| - 1]
  {
  }

  lemma InMilliseconds(lo: nat, average: nat, hi: nat)
    requires lo <= average <= hi && hi / MILLISECOND < TWO_TO_THE_32 && average < TWO_TO_THE_32
    ensures ToUint32(Quotient(lo, MILLISECOND)) <= ToUint32(average) / MILLISECOND
         <= ToUint32(Quotient(hi, MILLISECOND))
  {
  }
}
