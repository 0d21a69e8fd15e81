/**
 Latency statistics of one benchmark path: sorting, interpolated percentiles, mean and rounding.
 Durations are whole nanoseconds, statistics are milliseconds.
 */
module Statistics {
  import opened Arithmetic
  import opened Rounding
  import opened Wrappers

  datatype LatencyStatistics = LatencyStatistics(
    minimum: real, mean: real, median: real, p95: real, p99: real, maximum: real)

  // ---------- sorting ----------

  ghost predicate Sorted(s: seq<real>) {
    forall i, j :: 0 <= i < j < |s| ==> s[i] <= s[j]
  }

  function Insert(s: seq<real>, x: real): seq<real> {
    if s == [] || s[|s| - 1] <= x then s + [x] else Insert(s[..|s| - 1], x) + [s[|s| - 1]]
  }

  function Sort(s: seq<real>): seq<real> {
    if s == [] then [] else Insert(Sort(s[..|s| - 1]), s[|s| - 1])
  }

  lemma {:induction false} InsertContents(s: seq<real>, x: real)
    ensures multiset(Insert(s, x)) == multiset(s) + multiset{x}
  {
    if s == [] || s[|s| - 1] <= x {
    } else {
      InsertContents(s[..|s| - 1], x);
      assert s == s[..|s| - 1] + [s[|s| - 1]];
    }
  }

  lemma {:induction false} InsertBounded(s: seq<real>, x: real, hi: real)
    requires x <= hi && forall i :: 0 <= i < |s| ==> s[i] <= hi
    ensures forall i :: 0 <= i < |Insert(s, x)| ==> Insert(s, x)[i] <= hi
  {
    if s == [] || s[|s| - 1] <= x {
    } else {
      InsertBounded(s[..|s| - 1], x, hi);
    }
  }

  lemma {:induction false} InsertKeepsOrder(s: seq<real>, x: real)
    requires Sorted(s)
    ensures Sorted(Insert(s, x))
  {
    if s == [] || s[|s| - 1] <= x {
    } else {
      InsertKeepsOrder(s[..|s| - 1], x);
      InsertBounded(s[..|s| - 1], x, s[|s| - 1]);
    }
  }

  /** Sort returns the same values in ascending order. */
  lemma {:induction false} SortIsOrderedPermutation(s: seq<real>)
    ensures Sorted(Sort(s))
    ensures multiset(Sort(s)) == multiset(s)
    ensures |Sort(s)| == |s|
  {
    if s != [] {
      SortIsOrderedPermutation(s[..|s| - 1]);
      InsertKeepsOrder(Sort(s[..|s| - 1]), s[|s| - 1]);
      InsertContents(Sort(s[..|s| - 1]), s[|s| - 1]);
      assert s == s[..|s| - 1] + [s[|s| - 1]];
    }
    assert |multiset(Sort(s))| == |Sort(s)|;
  }

  /** There is only one ascending arrangement, so it does not matter which algorithm sorts. */
  lemma {:induction false} SortedIsUnique(a: seq<real>, b: seq<real>)
    requires Sorted(a) && Sorted(b) && multiset(a) == multiset(b)
    ensures a == b
  {
    SameLength(a, b);
    if a != [] {
      DropGreatest(a, b);
      SortedIsUnique(a[..|a| - 1], b[..|b| - 1]);
      assert a == a[..|a| - 1] + [a[|a| - 1]];
    }
  }

  lemma DropGreatest(a: seq<real>, b: seq<real>)
    requires Sorted(a) && Sorted(b) && multiset(a) == multiset(b) && |a| == |b| > 0
    ensures a[|a| - 1] == b[|b| - 1]
    ensures Sorted(a[..|a| - 1]) && Sorted(b[..|b| - 1])
    ensures multiset(a[..|a| - 1]) == multiset(b[..|b| - 1])
  {
    LastIsGreatest(a, b);
    LastIsGreatest(b, a);
    DropLast(a);
    DropLast(b);
  }

  lemma SameLength<T>(a: seq<T>, b: seq<T>)
    requires multiset(a) == multiset(b)
    ensures |a| == |b|
  {
    assert |multiset(a)| == |a| && |multiset(b)| == |b|;
  }

  lemma DropLast<T>(a: seq<T>)
    requires a != []
    ensures multiset(a[..|a| - 1]) == multiset(a) - multiset{a[|a| - 1]}
  {
    assert a == a[..|a| - 1] + [a[|a| - 1]];
  }

  lemma LastIsGreatest(a: seq<real>, b: seq<real>)
    requires Sorted(a) && multiset(a) == multiset(b) && |a| == |b| > 0
    ensures b[|b| - 1] <= a[|a| - 1]
  {
    assert b[|b| - 1] in multiset(a);
  }

  /** Moves the element at index n leftwards to its place among the n elements before it. */
  method InsertInPlace(a: array<real>, n: nat)
    requires n < a.Length
    modifies a
    ensures a[..n + 1] == Insert(old(a[..n]), old(a[n]))
    ensures a[n + 1..] == old(a[n + 1..])
  {
    var x := a[n];
    var hole := n;
    ghost var prefix := a[..n];
    while hole > 0 && a[hole - 1] > x
      invariant 0 <= hole <= n
      invariant a[..hole] == prefix[..hole]
      invariant a[hole + 1..n + 1] == prefix[hole..]
      invariant forall i :: hole <= i < n ==> prefix[i] > x
      invariant a[n + 1..] == old(a[n + 1..])
    {
      a[hole] := a[hole - 1];
      hole := hole - 1;
      assert a[hole + 1..n + 1] == [a[hole + 1]] + a[hole + 2..n + 1];
    }
    a[hole] := x;
    InsertAt(prefix, x, hole);
    assert a[..n + 1] == a[..hole] + [x] + a[hole + 1..n + 1];
  }

  lemma {:induction false} InsertAt(s: seq<real>, x: real, at: nat)
    requires at <= |s|
    requires at == 0 || s[at - 1] <= x
    requires forall i :: at <= i < |s| ==> s[i] > x
    ensures Insert(s, x) == s[..at] + [x] + s[at..]
  {
    if at < |s| {
      var front := s[..|s| - 1];
      InsertAt(front, x, at);
      assert s[at..] == front[at..] + [s[|s| - 1]];
    }
  }

  method SortInPlace(a: array<real>)
    modifies a
    ensures a[..] == Sort(old(a[..]))
  {
    ghost var was := a[..];
    var n := 0;
    while n < a.Length
      invariant 0 <= n <= a.Length
      invariant a[..n] == Sort(was[..n])
      invariant a[n..] == was[n..]
    {
      assert a[n] == was[n];
      assert was[..n + 1][..n] == was[..n];
      InsertInPlace(a, n);
      n := n + 1;
    }
    assert was[..n] == was && a[..n] == a[..];
  }

  // ---------- percentiles ----------

  function Ceil(x: real): int {
    -((-x).Floor)
  }

  /** The value at a fractional rank of an ascending list. */
  function Interpolate(s: seq<real>, position: real): real
    requires s != [] && 0.0 <= position <= (|s| - 1) as real
  {
    var lower := position.Floor;
    var upper := Ceil(position);
    FloorMonotone(0.0, position);
    FloorMonotone(position, (|s| - 1) as real);
    FloorMonotone(-((|s| - 1) as real), -position);
    FloorMonotone(-position, 0.0);
    if lower == upper then s[lower]
    else s[lower] + Times(s[upper] - s[lower], position - lower as real)
  }

  function Position(n: nat, percent: real): (position: real)
    requires n > 0 && 0.0 <= percent <= 100.0
    ensures 0.0 <= position <= (n - 1) as real
  {
    TimesBounds((n - 1) as real, percent / 100.0);
    Times((n - 1) as real, percent / 100.0)
  }

  function Percentile(s: seq<real>, percent: real): real
    requires s != [] && 0.0 <= percent <= 100.0
  {
    if |s| == 1 then s[0] else Interpolate(s, Position(|s|, percent))
  }

  /** An interpolated value lies between its neighbours, and reaches them at whole ranks. */
  lemma InterpolateBetween(s: seq<real>, position: real)
    requires s != [] && Sorted(s) && 0.0 <= position <= (|s| - 1) as real
    ensures 0 <= position.Floor < |s|
    ensures s[position.Floor] <= Interpolate(s, position)
    ensures position == position.Floor as real ==> Interpolate(s, position) == s[position.Floor]
    ensures position.Floor + 1 < |s| ==> Interpolate(s, position) <= s[position.Floor + 1]
  {
    var lower := position.Floor;
    FloorMonotone(0.0, position);
    FloorMonotone(position, (|s| - 1) as real);
    if position != lower as real {
      assert Ceil(position) == lower + 1;
      TimesBounds(s[lower + 1] - s[lower], position - lower as real);
    } else {
      assert Ceil(position) == lower;
    }
  }

  lemma CeilAbove(p: real)
    ensures Ceil(p) == if p == p.Floor as real then p.Floor else p.Floor + 1
  {
  }

  lemma InterpolateMonotone(s: seq<real>, p: real, q: real)
    requires s != [] && Sorted(s) && 0.0 <= p <= q <= (|s| - 1) as real
    ensures Interpolate(s, p) <= Interpolate(s, q)
  {
    InterpolateBetween(s, p);
    InterpolateBetween(s, q);
    FloorMonotone(p, q);
    var i, j := p.Floor, q.Floor;
    if i < j {
      assert s[i + 1] <= s[j];
    } else if p != i as real {
      OffRank(s, p);
      OffRank(s, q);
      TimesMonotone(s[i + 1] - s[i], p - i as real, q - i as real);
    }
  }

  lemma OffRank(s: seq<real>, p: real)
    requires s != [] && 0.0 <= p <= (|s| - 1) as real && p != p.Floor as real
    ensures 0 <= p.Floor && p.Floor + 1 < |s|
    ensures Interpolate(s, p) == s[p.Floor] + Times(s[p.Floor + 1] - s[p.Floor], p - p.Floor as real)
  {
    FloorMonotone(0.0, p);
    FloorMonotone(p, (|s| - 1) as real);
    CeilAbove(p);
  }

  lemma PositionMonotone(n: nat, p: real, q: real)
    requires n > 0 && 0.0 <= p <= q <= 100.0
    ensures Position(n, p) <= Position(n, q)
  {
    TimesMonotone((n - 1) as real, p / 100.0, q / 100.0);
  }

  /** A higher percentile of the same samples is never lower. */
  lemma PercentileMonotone(s: seq<real>, p: real, q: real)
    requires s != [] && Sorted(s) && 0.0 <= p <= q <= 100.0
    ensures Percentile(s, p) <= Percentile(s, q)
    ensures s[0] <= Percentile(s, p) && Percentile(s, q) <= s[|s| - 1]
  {
    if |s| > 1 {
      var n := (|s| - 1) as real;
      PositionMonotone(|s|, p, q);
      InterpolateMonotone(s, Position(|s|, p), Position(|s|, q));
      InterpolateMonotone(s, 0.0, Position(|s|, p));
      InterpolateMonotone(s, Position(|s|, q), n);
      InterpolateBetween(s, 0.0);
      InterpolateBetween(s, n);
    }
  }

  /** If every ranked sample grows, so does every percentile. */
  lemma PercentilePointwise(s: seq<real>, t: seq<real>, percent: real)
    requires |s| == |t| > 0 && 0.0 <= percent <= 100.0
    requires forall i :: 0 <= i < |s| ==> s[i] <= t[i]
    ensures Percentile(s, percent) <= Percentile(t, percent)
  {
    if |s| > 1 {
      var position := Position(|s|, percent);
      var lower := position.Floor;
      FloorMonotone(0.0, position);
      FloorMonotone(position, (|s| - 1) as real);
      CeilAbove(position);
      if position != lower as real {
        BlendMonotone(position - lower as real, s[lower], s[lower + 1], t[lower], t[lower + 1]);
      }
    }
  }

  lemma BlendMonotone(w: real, a: real, b: real, c: real, d: real)
    requires 0.0 <= w <= 1.0 && a <= c && b <= d
    ensures a + Times(b - a, w) <= c + Times(d - c, w)
  {
    assert w * (d - b) >= 0.0 && (1.0 - w) * (c - a) >= 0.0;
    assert c + (d - c) * w - (a + (b - a) * w) == (1.0 - w) * (c - a) + w * (d - b);
  }

  // ---------- mean ----------

  function Sum(s: seq<real>): real {
    if s == [] then 0.0 else Sum(s[..|s| - 1]) + s[|s| - 1]
  }

  function Mean(s: seq<real>): real
    requires s != []
  {
    Sum(s) / |s| as real
  }

  lemma {:induction false} SumBetween(s: seq<real>, lo: real, hi: real)
    requires forall i :: 0 <= i < |s| ==> lo <= s[i] <= hi
    ensures lo * |s| as real <= Sum(s) <= hi * |s| as real
  {
    if s != [] {
      SumBetween(s[..|s| - 1], lo, hi);
      assert lo * |s| as real == lo * (|s| - 1) as real + lo;
      assert hi * |s| as real == hi * (|s| - 1) as real + hi;
    }
  }

  lemma MeanBetween(s: seq<real>, lo: real, hi: real)
    requires s != [] && forall i :: 0 <= i < |s| ==> lo <= s[i] <= hi
    ensures lo <= Mean(s) <= hi
  {
    SumBetween(s, lo, hi);
    QuotientBetween(lo, Sum(s), hi, |s| as real);
  }

  // ---------- the statistics of a path ----------

  function Milliseconds(nanoseconds: int): real {
    nanoseconds as real / 1000000.0
  }

  function ToMilliseconds(samples: seq<int>): seq<real> {
    seq(|samples|, i requires 0 <= i < |samples| => Milliseconds(samples[i]))
  }

  function StatisticsOf(values: seq<real>): LatencyStatistics
    requires values != []
  {
    SortIsOrderedPermutation(values);
    var s := Sort(values);
    LatencyStatistics(
      Round6(s[0]), Round6(Mean(s)), Round6(Percentile(s, 50.0)),
      Round6(Percentile(s, 95.0)), Round6(Percentile(s, 99.0)), Round6(s[|s| - 1]))
  }

  /** Fails on an empty list and on a negative sample. */
  function Calculate(samples: seq<int>): Result<LatencyStatistics> {
    if samples == [] || exists i :: 0 <= i < |samples| && samples[i] < 0 then Err
    else Ok(StatisticsOf(ToMilliseconds(samples)))
  }

  /** The samples are only read: the sorting happens in a copy. */
  method CalculateLatencyStatistics(samples: array<int>) returns (result: Result<LatencyStatistics>)
    ensures result == Calculate(samples[..])
  {
    if samples.Length == 0 {
      return Err;
    }
    var values := new real[samples.Length];
    var index := 0;
    while index < samples.Length
      invariant 0 <= index <= samples.Length
      invariant forall i :: 0 <= i < index ==> samples[i] >= 0 && values[i] == Milliseconds(samples[i])
      modifies values
    {
      if samples[index] < 0 {
        assert samples[..][index] < 0;
        return Err;
      }
      values[index] := Milliseconds(samples[index]);
      index := index + 1;
    }
    assert values[..] == ToMilliseconds(samples[..]);
    var statistics := Summarize(values);
    result := Ok(statistics);
  }

  method AddUp(values: array<real>) returns (total: real)
    ensures total == Sum(values[..])
  {
    total := 0.0;
    var index := 0;
    while index < values.Length
      invariant 0 <= index <= values.Length
      invariant total == Sum(values[..index])
    {
      assert values[..index + 1][..index] == values[..index];
      total := total + values[index];
      index := index + 1;
    }
    assert values[..index] == values[..];
  }

  method Summarize(values: array<real>) returns (statistics: LatencyStatistics)
    requires values.Length > 0
    modifies values
    ensures statistics == StatisticsOf(old(values[..]))
  {
    SortIsOrderedPermutation(values[..]);
    SortInPlace(values);
    var total := AddUp(values);
    statistics := LatencyStatistics(
      Round6(values[0]), Round6(total / values.Length as real),
      Round6(Percentile(values[..], 50.0)), Round6(Percentile(values[..], 95.0)),
      Round6(Percentile(values[..], 99.0)), Round6(values[values.Length - 1]));
  }

  lemma MillisecondsOnGrid(nanoseconds: int)
    ensures OnGrid(Milliseconds(nanoseconds))
  {
    assert Milliseconds(nanoseconds) * 1000000.0 == nanoseconds as real;
  }

  /** The six figures are ordered, and the extremes are the exact extremes of the samples. */
  lemma StatisticsOrdered(samples: seq<int>)
    requires Calculate(samples).Ok?
    ensures var r := Calculate(samples).value;
            && 0.0 <= r.minimum <= r.median <= r.p95 <= r.p99 <= r.maximum
            && r.minimum <= r.mean <= r.maximum
            && (forall i :: 0 <= i < |samples| ==> r.minimum <= Milliseconds(samples[i]) <= r.maximum)
            && (exists i :: 0 <= i < |samples| && r.minimum == Milliseconds(samples[i]))
            && (exists i :: 0 <= i < |samples| && r.maximum == Milliseconds(samples[i]))
  {
    var s := Sort(ToMilliseconds(samples));
    var n := |s|;
    SortIsOrderedPermutation(ToMilliseconds(samples));
    var lo := SampleAt(samples, 0);
    var hi := SampleAt(samples, n - 1);
    forall i | 0 <= i < |samples| ensures s[0] <= Milliseconds(samples[i]) <= s[n - 1] {
      SampleRank(samples, i);
    }
    MillisecondsOnGrid(samples[lo]);
    MillisecondsOnGrid(samples[hi]);
    RoundFixesGrid(s[0]);
    RoundFixesGrid(s[n - 1]);
    FiguresOrdered(s);
  }

  /** Every rank holds a sample. */
  lemma SampleAt(samples: seq<int>, rank: nat) returns (i: nat)
    requires rank < |samples|
    ensures i < |samples| && |Sort(ToMilliseconds(samples))| == |samples|
    ensures Sort(ToMilliseconds(samples))[rank] == Milliseconds(samples[i])
  {
    var values := ToMilliseconds(samples);
    SortIsOrderedPermutation(values);
    assert Sort(values)[rank] in multiset(values);
    i :| 0 <= i < |values| && values[i] == Sort(values)[rank];
  }

  /** Every sample has a rank. */
  lemma SampleRank(samples: seq<int>, i: nat)
    requires i < |samples|
    ensures exists rank :: 0 <= rank < |Sort(ToMilliseconds(samples))|
                           && Sort(ToMilliseconds(samples))[rank] == Milliseconds(samples[i])
  {
    var values := ToMilliseconds(samples);
    SortIsOrderedPermutation(values);
    assert values[i] in multiset(Sort(values));
  }

  lemma FiguresOrdered(s: seq<real>)
    requires s != [] && Sorted(s)
    ensures Round6(s[0]) <= Round6(Percentile(s, 50.0)) <= Round6(Percentile(s, 95.0))
    ensures Round6(Percentile(s, 95.0)) <= Round6(Percentile(s, 99.0)) <= Round6(s[|s| - 1])
    ensures Round6(s[0]) <= Round6(Mean(s)) <= Round6(s[|s| - 1])
  {
    PercentileMonotone(s, 50.0, 95.0);
    PercentileMonotone(s, 95.0, 99.0);
    MeanBetween(s, s[0], s[|s| - 1]);
    RoundMonotone(s[0], Percentile(s, 50.0));
    RoundMonotone(Percentile(s, 50.0), Percentile(s, 95.0));
    RoundMonotone(Percentile(s, 95.0), Percentile(s, 99.0));
    RoundMonotone(Percentile(s, 99.0), s[|s| - 1]);
    RoundMonotone(s[0], Mean(s));
    RoundMonotone(Mean(s), s[|s| - 1]);
  }

  /** The order in which the workers delivered the samples leaves no trace. */
  lemma StatisticsIgnoreOrder(a: seq<int>, b: seq<int>)
    requires multiset(a) == multiset(b)
    ensures Calculate(a) == Calculate(b)
  {
    SameLength(a, b);
    NegativeTravels(a, b);
    NegativeTravels(b, a);
    if Calculate(a).Ok? {
      MillisecondsContents(a, b);
      SortIsOrderedPermutation(ToMilliseconds(a));
      SortIsOrderedPermutation(ToMilliseconds(b));
      SortedIsUnique(Sort(ToMilliseconds(a)), Sort(ToMilliseconds(b)));
    }
  }

  lemma NegativeTravels(a: seq<int>, b: seq<int>)
    requires multiset(a) == multiset(b)
    ensures (exists i :: 0 <= i < |a| && a[i] < 0) ==> exists j :: 0 <= j < |b| && b[j] < 0
  {
    if i :| 0 <= i < |a| && a[i] < 0 {
      assert a[i] in multiset(b);
    }
  }

  lemma {:induction false} MillisecondsContents(a: seq<int>, b: seq<int>)
    requires multiset(a) == multiset(b)
    ensures multiset(ToMilliseconds(a)) == multiset(ToMilliseconds(b))
  {
    SameLength(a, b);
    if a == [] {
      assert ToMilliseconds(a) == ToMilliseconds(b);
    } else {
      var x := a[0];
      assert x in multiset(b);
      var j :| 0 <= j < |b| && b[j] == x;
      RemoveAt(a, 0);
      RemoveAt(b, j);
      assert multiset(Without(a, 0)) == multiset(a) - multiset{x};
      assert multiset(Without(b, j)) == multiset(b) - multiset{x};
      MillisecondsContents(Without(a, 0), Without(b, j));
      MillisecondsRemoveAt(a, 0);
      MillisecondsRemoveAt(b, j);
    }
  }

  ghost function Without<T>(s: seq<T>, i: nat): seq<T>
    requires i < |s|
  {
    s[..i] + s[i + 1..]
  }

  lemma RemoveAt<T>(s: seq<T>, i: nat)
    requires i < |s|
    ensures multiset(s) == multiset(Without(s, i)) + multiset{s[i]}
  {
    assert s == s[..i] + [s[i]] + s[i + 1..];
  }

  lemma MillisecondsRemoveAt(s: seq<int>, i: nat)
    requires i < |s|
    ensures multiset(ToMilliseconds(s)) == multiset(ToMilliseconds(Without(s, i))) + multiset{Milliseconds(s[i])}
  {
    assert ToMilliseconds(Without(s, i)) == Without(ToMilliseconds(s), i);
    RemoveAt(ToMilliseconds(s), i);
  }
}
