/** benchmark/benchmark_runner.h: detail::percentile and detail::compute_result, over reals. */
module Percentile {
  ghost predicate IsSorted(s: seq<real>) {
    forall i, j :: 0 <= i <= j < |s| ==> s[i] <= s[j]
  }

  function Insert(x: real, s: seq<real>): (r: seq<real>)
    ensures |r| == |s| + 1
  {
    if s == [] || s[|s| - 1] <= x then s + [x] else Insert(x, s[..|s| - 1]) + [s[|s| - 1]]
  }

  /** What std::sort leaves. */
  function Sorted(s: seq<real>): (r: seq<real>)
    ensures |r| == |s|
  {
    if s == [] then [] else Insert(s[|s| - 1], Sorted(s[..|s| - 1]))
  }

  lemma {:induction false} InsertKeeps(x: real, s: seq<real>)
    ensures multiset(Insert(x, s)) == multiset(s) + multiset{x}
  {
    if s != [] && s[|s| - 1] > x {
      InsertKeeps(x, s[..|s| - 1]);
      assert s == s[..|s| - 1] + [s[|s| - 1]];
    }
  }

  lemma {:induction false} InsertSorts(x: real, s: seq<real>)
    requires IsSorted(s)
    ensures IsSorted(Insert(x, s))
    ensures Insert(x, s)[|s|] == if s != [] && s[|s| - 1] > x then s[|s| - 1] else x
  {
    if s != [] && s[|s| - 1] > x {
      InsertSorts(x, s[..|s| - 1]);
    }
  }

  lemma {:induction false} SortedSorts(s: seq<real>)
    ensures IsSorted(Sorted(s)) && multiset(Sorted(s)) == multiset(s)
  {
    if s != [] {
      var few, x := s[..|s| - 1], s[|s| - 1];
      SortedSorts(few);
      InsertSorts(x, Sorted(few));
      InsertKeeps(x, Sorted(few));
      SplitLast(s);
    }
  }

  lemma SplitLast(s: seq<real>)
    requires s != []
    ensures multiset(s) == multiset(s[..|s| - 1]) + multiset{s[|s| - 1]}
  {
    assert s == s[..|s| - 1] + [s[|s| - 1]];
  }

  lemma {:induction false} SortedIsStable(s: seq<real>)
    requires IsSorted(s)
    ensures Sorted(s) == s
  {
    if s != [] {
      SortedIsStable(s[..|s| - 1]);
      assert s == s[..|s| - 1] + [s[|s| - 1]];
    }
  }

  function Ceil(x: real): (c: int)
    ensures c == if x == x.Floor as real then x.Floor else x.Floor + 1
  {
    -((-x).Floor)
  }

  /** The fractional index of percentile p. */
  function IndexOf(n: nat, p: real): real
    requires n > 0
  {
    p / 100.0 * (n - 1) as real
  }

  lemma ScaleMonotone(f: real, g: real, m: real)
    requires f <= g && m >= 0.0
    ensures f * m <= g * m
  {
    assert (g - f) * m >= 0.0;
  }

  lemma IndexMonotone(n: nat, p: real, q: real)
    requires n > 0 && 0.0 <= p <= q <= 100.0
    ensures 0.0 <= IndexOf(n, p) <= IndexOf(n, q) <= (n - 1) as real
  {
    ScaleMonotone(0.0, p / 100.0, (n - 1) as real);
    ScaleMonotone(p / 100.0, q / 100.0, (n - 1) as real);
    ScaleMonotone(q / 100.0, 1.0, (n - 1) as real);
  }

  function Segment(a: real, b: real, f: real): real {
    a * (1.0 - f) + b * f
  }

  /** Linear interpolation at a fractional index of sorted samples. */
  function At(s: seq<real>, idx: real): real
    requires 0.0 <= idx && idx.Floor < |s|
  {
    var lo, hi := idx.Floor, Ceil(idx);
    if lo == hi || hi >= |s| then s[lo]
    else Segment(s[lo], s[hi], idx - lo as real)
  }

  function PercentileOf(s: seq<real>, p: real): real
    requires 0.0 <= p <= 100.0
  {
    if s == [] then 0.0
    else
      SortedSorts(s);
      IndexMonotone(|s|, p, p);
      At(Sorted(s), IndexOf(|s|, p))
  }

  /** The interpolated value rises with the fraction, between the two samples around it. */
  lemma SegmentMonotone(a: real, b: real, f: real, g: real)
    requires a <= b && 0.0 <= f <= g <= 1.0
    ensures a <= Segment(a, b, f) <= Segment(a, b, g) <= b
  {
    SegmentForm(a, b, f);
    SegmentForm(a, b, g);
    var width := b - a;
    ScaleMonotone(0.0, f, width);
    ScaleMonotone(f, g, width);
    ScaleMonotone(g, 1.0, width);
    assert 0.0 * width == 0.0 && 1.0 * width == width;
  }

  lemma SegmentForm(a: real, b: real, f: real)
    ensures Segment(a, b, f) == a + f * (b - a) == Between(a, b, f)
  {
  }

  lemma AtSegment(s: seq<real>, idx: real)
    requires 0.0 <= idx && idx.Floor + 1 < |s|
    ensures At(s, idx) == Segment(s[idx.Floor], s[idx.Floor + 1], idx - idx.Floor as real)
  {
    if idx == idx.Floor as real {
      assert Ceil(idx) == idx.Floor;
    } else {
      assert Ceil(idx) == idx.Floor + 1;
    }
  }

  lemma AtBetween(s: seq<real>, idx: real)
    requires IsSorted(s) && 0.0 <= idx && idx.Floor < |s|
    ensures s[idx.Floor] <= At(s, idx) <= s[if idx.Floor + 1 < |s| then idx.Floor + 1 else |s| - 1]
  {
    var lo := idx.Floor;
    if lo + 1 < |s| {
      AtSegment(s, idx);
      SegmentMonotone(s[lo], s[lo + 1], idx - lo as real, 1.0);
    } else {
      assert Ceil(idx) == lo || Ceil(idx) == lo + 1;
    }
  }

  lemma AtMonotone(s: seq<real>, i: real, j: real)
    requires IsSorted(s) && 0.0 <= i <= j && j.Floor < |s|
    ensures At(s, i) <= At(s, j)
  {
    if i.Floor < j.Floor {
      AtBetween(s, i);
      AtBetween(s, j);
    } else if i.Floor + 1 < |s| {
      var lo := i.Floor;
      AtSegment(s, i);
      AtSegment(s, j);
      SegmentMonotone(s[lo], s[lo + 1], i - lo as real, j - lo as real);
    }
  }

  /** Percentiles rise with p. */
  lemma PercentileMonotone(s: seq<real>, p: real, q: real)
    requires s != [] && 0.0 <= p <= q <= 100.0
    ensures PercentileOf(s, p) <= PercentileOf(s, q)
  {
    SortedSorts(s);
    IndexMonotone(|s|, p, q);
    AtMonotone(Sorted(s), IndexOf(|s|, p), IndexOf(|s|, q));
  }

  /** Every percentile lies between the smallest and the largest sample. */
  lemma PercentileWithinSamples(s: seq<real>, p: real)
    requires s != [] && 0.0 <= p <= 100.0
    ensures Sorted(s)[0] in s && Sorted(s)[|s| - 1] in s
    ensures forall x :: x in s ==> Sorted(s)[0] <= x <= Sorted(s)[|s| - 1]
    ensures Sorted(s)[0] <= PercentileOf(s, p) <= Sorted(s)[|s| - 1]
  {
    SortedSorts(s);
    var t, idx := Sorted(s), IndexOf(|s|, p);
    IndexMonotone(|s|, p, p);
    AtBetween(t, idx);
    assert t[0] <= t[idx.Floor] && t[if idx.Floor + 1 < |s| then idx.Floor + 1 else |s| - 1] <= t[|s| - 1];
    assert t[0] in multiset(t) && t[|t| - 1] in multiset(t);
    forall x | x in s
      ensures t[0] <= x <= t[|t| - 1]
    {
      assert x in multiset(s) && x in multiset(t);
    }
  }

  /** The point that lies the fraction f of the way from a to b. */
  function Between(a: real, b: real, f: real): real {
    a + f * (b - a)
  }

  /** With the percentiles 0 to 100 spread evenly over the ranks 0 to |s| - 1, the one that lies the fraction f of the way from
      rank k to rank k + 1 is that far between the two samples of those ranks. */
  lemma PercentileBetweenRanks(s: seq<real>, p: real, k: nat, f: real)
    requires k + 1 < |s| && 0.0 <= f <= 1.0 && 0.0 <= p <= 100.0 && p * (|s| - 1) as real == 100.0 * (k as real + f)
    ensures PercentileOf(s, p) == Between(Sorted(s)[k], Sorted(s)[k + 1], f)
  {
    IndexIs(|s|, p, k as real + f);
    AtFraction(Sorted(s), k, f);
    PercentileAtIndex(s, p, k as real + f, Between(Sorted(s)[k], Sorted(s)[k + 1], f));
  }

  lemma PercentileAtIndex(s: seq<real>, p: real, idx: real, value: real)
    requires s != [] && 0.0 <= p <= 100.0 && IndexOf(|s|, p) == idx && 0.0 <= idx && idx.Floor < |s| && At(Sorted(s), idx) == value
    ensures PercentileOf(s, p) == value
  {
  }

  lemma IndexIs(n: nat, p: real, idx: real)
    requires n > 0 && p * (n - 1) as real == 100.0 * idx
    ensures IndexOf(n, p) == idx
  {
    assert p / 100.0 * (n - 1) as real == p * (n - 1) as real / 100.0;
  }

  lemma AtFraction(s: seq<real>, k: nat, f: real)
    requires k + 1 < |s| && 0.0 <= f <= 1.0
    ensures (k as real + f).Floor < |s| && At(s, k as real + f) == Between(s[k], s[k + 1], f)
  {
    var idx := k as real + f;
    if f < 1.0 {
      assert idx.Floor == k;
      AtSegment(s, idx);
      SegmentForm(s[k], s[k + 1], f);
    } else {
      assert idx == (k + 1) as real && idx.Floor == k + 1 && Ceil(idx) == k + 1;
    }
  }

  /** So the percentile of a whole rank is the sample of that rank. */
  lemma PercentileAtRank(s: seq<real>, p: real, k: nat)
    requires k < |s| && 0.0 <= p <= 100.0 && p * (|s| - 1) as real == 100.0 * k as real
    ensures PercentileOf(s, p) == Sorted(s)[k]
  {
    IndexIs(|s|, p, k as real);
    assert Ceil(k as real) == k;
    PercentileAtIndex(s, p, k as real, Sorted(s)[k]);
  }

  /** The outermost ones are the least and the greatest sample. */
  lemma OutermostPercentiles(s: seq<real>, p: real, k: nat)
    requires s != [] && ((p == 0.0 && k == 0) || (p == 100.0 && k == |s| - 1))
    ensures PercentileOf(s, p) == Sorted(s)[k]
  {
    assert p * (|s| - 1) as real == 100.0 * k as real;
    PercentileAtRank(s, p, k);
  }

  /** Sorts its argument in place and interpolates. */
  method Percentile(samples: array<real>, p: real) returns (r: real)
    requires 0.0 <= p <= 100.0
    modifies samples
    ensures samples[..] == Sorted(old(samples[..]))
    ensures r == PercentileOf(old(samples[..]), p)
  {
    if samples.Length == 0 {
      return 0.0;
    }
    ghost var before := samples[..];
    SortInPlace(samples);
    SortedSorts(before);
    IndexMonotone(samples.Length, p, p);
    r := Interpolate(samples, IndexOf(samples.Length, p));
  }

  method Interpolate(samples: array<real>, idx: real) returns (r: real)
    requires 0.0 <= idx && idx.Floor < samples.Length
    ensures r == At(samples[..], idx)
  {
    var lo, hi := idx.Floor, Ceil(idx);
    if lo == hi || hi >= samples.Length {
      return samples[lo];
    }
    var frac := idx - lo as real;
    return samples[lo] * (1.0 - frac) + samples[hi] * frac;
  }

  /** The effect of std::sort. */
  method SortInPlace(a: array<real>)
    modifies a
    ensures a[..] == Sorted(old(a[..]))
  {
    var t := Sorted(a[..]);
    SortedSorts(a[..]);
    for i := 0 to a.Length
      invariant a[..i] == t[..i]
    {
      a[i] := t[i];
    }
    assert a[..a.Length] == a[..];
  }

  datatype BenchmarkResult = BenchmarkResult(
    total: nat, min: real, max: real, avg: real, p50: real, p90: real, p95: real, p99: real, fps: real)

  function Sum(s: seq<real>): real {
    if s == [] then 0.0 else Sum(s[..|s| - 1]) + s[|s| - 1]
  }

  lemma {:induction false} SumBetween(s: seq<real>, lo: real, hi: real)
    requires forall i :: 0 <= i < |s| ==> lo <= s[i] <= hi
    ensures lo * |s| as real <= Sum(s) <= hi * |s| as real
  {
    if s != [] {
      SumBetween(s[..|s| - 1], lo, hi);
    }
  }

  lemma AverageBetween(s: seq<real>, lo: real, hi: real)
    requires s != [] && forall i :: 0 <= i < |s| ==> lo <= s[i] <= hi
    ensures lo <= Sum(s) / |s| as real <= hi
  {
    SumBetween(s, lo, hi);
  }

  /** Fills the statistics from a private copy of the samples; with no samples they stay zero. */
  method ComputeResult(samples: array<real>, totalWallMs: real) returns (r: BenchmarkResult)
    modifies samples
    ensures r.total == samples.Length
    ensures samples.Length == 0 ==> r == BenchmarkResult(0, 0.0, 0.0, 0.0, 0.0, 0.0, 0.0, 0.0, 0.0)
    ensures samples.Length > 0 ==>
      && r.p50 == PercentileOf(old(samples[..]), 50.0) && r.p90 == PercentileOf(old(samples[..]), 90.0)
      && r.p95 == PercentileOf(old(samples[..]), 95.0) && r.p99 == PercentileOf(old(samples[..]), 99.0)
      && r.min <= r.p50 <= r.p90 <= r.p95 <= r.p99 <= r.max
      && r.min <= r.avg <= r.max && r.avg == Sum(old(samples[..])) / samples.Length as real
      && r.min in old(samples[..]) && r.max in old(samples[..])
      && (forall x :: x in old(samples[..]) ==> r.min <= x <= r.max)
      && r.fps == if totalWallMs > 0.0 then samples.Length as real / totalWallMs * 1000.0 else 0.0
  {
    if samples.Length == 0 {
      return BenchmarkResult(0, 0.0, 0.0, 0.0, 0.0, 0.0, 0.0, 0.0, 0.0);
    }
    ghost var s := samples[..];
    var lo, hi, sum := samples[0], samples[0], 0.0;
    for i := 0 to samples.Length
      invariant lo in s && hi in s && sum == Sum(s[..i])
      invariant forall k :: 0 <= k < i ==> lo <= s[k] <= hi
    {
      assert s[..i + 1][..i] == s[..i];
      lo, hi, sum := if samples[i] < lo then samples[i] else lo, if samples[i] > hi then samples[i] else hi, sum + samples[i];
    }
    assert s[..|s|] == s;
    AverageBetween(s, lo, hi);
    ResortingIsFree(s);
    var p50 := Percentile(samples, 50.0);
    var p90 := Percentile(samples, 90.0);
    var p95 := Percentile(samples, 95.0);
    var p99 := Percentile(samples, 99.0);
    PercentileMonotone(s, 50.0, 90.0);
    PercentileMonotone(s, 90.0, 95.0);
    PercentileMonotone(s, 95.0, 99.0);
    PercentileWithinSamples(s, 50.0);
    PercentileWithinSamples(s, 99.0);
    var fps := if totalWallMs > 0.0 then samples.Length as real / totalWallMs * 1000.0 else 0.0;
    return BenchmarkResult(samples.Length, lo, hi, sum / samples.Length as real, p50, p90, p95, p99, fps);
  }

  /** The later calls see samples that the first has already sorted. */
  lemma ResortingIsFree(s: seq<real>)
    ensures Sorted(Sorted(s)) == Sorted(s)
    ensures forall p :: 0.0 <= p <= 100.0 ==> PercentileOf(Sorted(s), p) == PercentileOf(s, p)
  {
    SortedSorts(s);
    SortedIsStable(Sorted(s));
  }
}
