/** Latency snapshots: percentiles by nearest rank over the sorted samples, and a histogram
    of seven buckets. */
module Metrics {
  import opened Wire
  import opened Sums

  // ---------------------------------------------------------------- sorting

  predicate Sorted(s: seq<nat>) {
    forall i, j | 0 <= i < j < |s| :: s[i] <= s[j]
  }

  function Insert(x: nat, s: seq<nat>): seq<nat> {
    if s == [] || x <= s[0] then [x] + s else [s[0]] + Insert(x, s[1..])
  }

  function Sort(s: seq<nat>): seq<nat> {
    if s == [] then [] else Insert(s[0], Sort(s[1..]))
  }

  lemma {:induction false} InsertAdds(x: nat, s: seq<nat>)
    ensures multiset(Insert(x, s)) == multiset(s) + multiset{x} && |Insert(x, s)| == |s| + 1
  {
    if s == [] || x <= s[0] {
    } else {
      InsertAdds(x, s[1..]);
      assert s == [s[0]] + s[1..];
      assert multiset(s) == multiset{s[0]} + multiset(s[1..]);
    }
  }

  lemma InFrontOfSorted(x: nat, s: seq<nat>)
    requires Sorted(s) && s != [] && x <= s[0]
    ensures Sorted([x] + s)
  {
  }

  lemma {:induction false} InsertSorts(x: nat, s: seq<nat>)
    requires Sorted(s)
    ensures Sorted(Insert(x, s))
    ensures Insert(x, s)[0] == if s == [] || x <= s[0] then x else s[0]
  {
    if s != [] && x > s[0] {
      InsertSorts(x, s[1..]);
      var t := Insert(x, s[1..]);
      assert Sorted(t) && s[0] <= t[0];
      InFrontOfSorted(s[0], t);
    } else if s != [] {
      InFrontOfSorted(x, s);
    }
  }

  lemma {:induction false} SortSorts(s: seq<nat>)
    ensures Sorted(Sort(s)) && multiset(Sort(s)) == multiset(s) && |Sort(s)| == |s|
  {
    if s == [] {
    } else {
      SortSorts(s[1..]);
      InsertSorts(s[0], Sort(s[1..]));
      InsertAdds(s[0], Sort(s[1..]));
      assert s == [s[0]] + s[1..];
    }
  }

  lemma SmallestIsFirst(a: seq<nat>, b: seq<nat>)
    requires Sorted(a) && b != [] && multiset(a) == multiset(b) && a != []
    ensures a[0] <= b[0]
  {
    assert b[0] in multiset(b);
    assert b[0] in a;
  }

  /** There is one way to sort. */
  lemma {:induction false} SortedIsUnique(a: seq<nat>, b: seq<nat>)
    requires Sorted(a) && Sorted(b) && multiset(a) == multiset(b)
    ensures a == b
  {
    assert |a| == |multiset(a)| && |b| == |multiset(b)|;
    if a == [] {
    } else {
      SmallestIsFirst(a, b);
      SmallestIsFirst(b, a);
      assert a == [a[0]] + a[1..] && b == [b[0]] + b[1..];
      assert multiset(a[1..]) == multiset(a) - multiset{a[0]};
      assert multiset(b[1..]) == multiset(b) - multiset{b[0]};
      SortedIsUnique(a[1..], b[1..]);
    }
  }

  // ---------------------------------------------------------------- percentiles

  /** The index nearest to `percentile` of the way from the first sample to the last. */
  function RankIndex(n: nat, percentile: real): nat
    requires n > 0 && percentile >= 0.0
  {
    var index := (percentile * ((n - 1) as real) + 0.5).Floor;
    if index < n - 1 then index else n - 1
  }

  const UINT64_MAX: nat := 0xFFFF_FFFF_FFFF_FFFF

  function PercentileValue(sorted: seq<nat>, percentile: real): nat
    requires percentile >= 0.0
  {
    if sorted == [] then UINT64_MAX else sorted[RankIndex(|sorted|, percentile)]
  }

  lemma PortionOf(percentile: real, width: real)
    requires 0.0 <= percentile <= 1.0 && width >= 0.0
    ensures 0.0 <= percentile * width <= width
  {
  }

  /** The index is within half a place of the exact position, and the clamp never acts. */
  lemma RankIsNearest(n: nat, percentile: real)
    requires n > 0 && 0.0 <= percentile <= 1.0
    ensures var exact := percentile * ((n - 1) as real);
            && RankIndex(n, percentile) == (exact + 0.5).Floor
            && exact - 0.5 < RankIndex(n, percentile) as real <= exact + 0.5
  {
    PortionOf(percentile, (n - 1) as real);
  }

  lemma RankGrows(n: nat, p: real, q: real)
    requires n > 0 && 0.0 <= p <= q
    ensures RankIndex(n, p) <= RankIndex(n, q)
  {
    var width := (n - 1) as real;
    var a, b := p * width + 0.5, q * width + 0.5;
    assert b - a == (q - p) * width >= 0.0;
    assert a.Floor <= b.Floor;
  }

  function CountAtMost(s: seq<nat>, x: nat): nat {
    if s == [] then 0 else CountAtMost(s[1..], x) + if s[0] <= x then 1 else 0
  }

  lemma {:induction false} CountInSorted(s: seq<nat>, x: nat, i: nat)
    requires Sorted(s) && i < |s|
    ensures CountAtMost(s, x) > i <==> s[i] <= x
  {
    if i > 0 {
      CountInSorted(s[1..], x, i - 1);
    } else if s[0] > x && |s| > 1 {
      CountInSorted(s[1..], x, 0);
    }
  }

  lemma {:induction false} CountOfInsert(y: nat, s: seq<nat>, x: nat)
    ensures CountAtMost(Insert(y, s), x) == CountAtMost(s, x) + if y <= x then 1 else 0
  {
    if s == [] || y <= s[0] {
      assert ([y] + s)[1..] == s;
    } else {
      CountOfInsert(y, s[1..], x);
      assert ([s[0]] + Insert(y, s[1..]))[1..] == Insert(y, s[1..]);
    }
  }

  lemma {:induction false} CountIgnoresOrder(s: seq<nat>, x: nat)
    ensures CountAtMost(Sort(s), x) == CountAtMost(s, x)
  {
    if s == [] {
    } else {
      CountIgnoresOrder(s[1..], x);
      CountOfInsert(s[0], Sort(s[1..]), x);
    }
  }

  /** What a percentile means: it is one of the samples, and the smallest value that more
      than `rank` of them do not exceed. */
  lemma PercentileIsNearestRank(samples: seq<nat>, percentile: real, x: nat)
    requires samples != [] && 0.0 <= percentile <= 1.0
    ensures var value := PercentileValue(Sort(samples), percentile);
            && value in samples
            && (value <= x <==> CountAtMost(samples, x) > RankIndex(|samples|, percentile))
  {
    hide Sort;
    SortSorts(samples);
    var sorted, rank := Sort(samples), RankIndex(|samples|, percentile);
    CountInSorted(sorted, x, rank);
    CountIgnoresOrder(samples, x);
    assert sorted[rank] in multiset(sorted);
  }

  // ---------------------------------------------------------------- the histogram

  const BUCKETS: nat := 7

  /** Upper bounds in milliseconds: 0.5, 1, 2, 5, 10, 50; the last bucket is open. */
  function BucketOf(sample: nat): (b: nat)
    ensures b < BUCKETS
  {
    var ms := (sample as real) / 1_000_000.0;
    if ms <= 0.5 then 0
    else if ms <= 1.0 then 1
    else if ms <= 2.0 then 2
    else if ms <= 5.0 then 3
    else if ms <= 10.0 then 4
    else if ms <= 50.0 then 5
    else 6
  }

  const BOUNDS: seq<nat> := [0, 500_000, 1_000_000, 2_000_000, 5_000_000, 10_000_000, 50_000_000]

  /** The buckets in nanoseconds: each is open below and closed above, and zero is in the first. */
  lemma BucketsInNanoseconds(sample: nat, b: nat)
    requires b < BUCKETS
    ensures BucketOf(sample) == b <==>
              (b == 0 || BOUNDS[b] < sample) && (b + 1 < BUCKETS ==> sample <= BOUNDS[b + 1])
  {
    var ms := (sample as real) / 1_000_000.0;
    assert ms * 1_000_000.0 == sample as real;
  }

  function CountIn(samples: seq<nat>, b: nat): nat {
    if samples == [] then 0
    else CountIn(samples[..|samples| - 1], b) + if BucketOf(samples[|samples| - 1]) == b then 1 else 0
  }

  function Histogram(samples: seq<nat>): (counts: seq<nat>)
    ensures |counts| == BUCKETS
  {
    seq(BUCKETS, b requires 0 <= b < BUCKETS => CountIn(samples, b))
  }

  lemma HistogramSnoc(samples: seq<nat>, sample: nat)
    ensures Histogram(samples + [sample]) == Raise(Histogram(samples), BucketOf(sample), 1)
  {
    assert (samples + [sample])[..|samples|] == samples;
  }

  lemma NoSamples()
    ensures Histogram([]) == Zeros(BUCKETS)
  {
  }

  /** Every sample is in exactly one bucket. */
  lemma {:induction false} BucketsAddUp(samples: seq<nat>)
    ensures Sum(Histogram(samples)) == |samples|
  {
    hide Histogram, BucketOf;
    if samples == [] {
      NoSamples();
      SumOfZeros(Histogram([]));
    } else {
      var earlier, last := samples[..|samples| - 1], samples[|samples| - 1];
      BucketsAddUp(earlier);
      assert samples == earlier + [last];
      HistogramSnoc(earlier, last);
      SumRaise(Histogram(earlier), BucketOf(last), 1);
    }
  }

  // ---------------------------------------------------------------- snapshots

  datatype Snapshot = Snapshot(
    count: nat,
    min: nat, p50: nat, p75: nat, p90: nat, p95: nat, p99: nat, p999: nat, max: nat,
    buckets: seq<nat>)

  function SnapshotOf(samples: seq<nat>): Snapshot {
    if samples == [] then
      Snapshot(0, UINT64_MAX, UINT64_MAX, UINT64_MAX, UINT64_MAX, UINT64_MAX, UINT64_MAX, UINT64_MAX, UINT64_MAX,
          Zeros(BUCKETS))
    else
      var s := Sort(samples);
      Snapshot(|samples|,
               PercentileValue(s, 0.0), PercentileValue(s, 0.50), PercentileValue(s, 0.75), PercentileValue(s, 0.90),
               PercentileValue(s, 0.95), PercentileValue(s, 0.99), PercentileValue(s, 0.999), PercentileValue(s, 1.0),
               Histogram(s))
  }

  lemma ExtremesAreEnds(s: seq<nat>)
    requires s != []
    ensures PercentileValue(s, 0.0) == s[0] && PercentileValue(s, 1.0) == s[|s| - 1]
  {
    var width := (|s| - 1) as real;
    assert 0.0 * width == 0.0 && 1.0 * width == width;
    assert (width + 0.5).Floor == |s| - 1;
  }

  /** The percentile and histogram part of StreamMetrics::Snapshot. */
  method TakeSnapshot(samples: seq<nat>) returns (snapshot: Snapshot)
    ensures snapshot == SnapshotOf(samples)
  {
    hide Sort, Histogram, PercentileValue;
    if samples == [] {
      return Snapshot(0, UINT64_MAX, UINT64_MAX, UINT64_MAX, UINT64_MAX, UINT64_MAX, UINT64_MAX, UINT64_MAX, UINT64_MAX,
                      Zeros(BUCKETS));
    }
    var s := Sort(samples);
    SortSorts(samples);
    ExtremesAreEnds(s);
    var buckets := Zeros(BUCKETS);
    NoSamples();
    for i := 0 to |s|
      invariant buckets == Histogram(s[..i])
    {
      HistogramSnoc(s[..i], s[i]);
      assert s[..i] + [s[i]] == s[..i + 1];
      buckets := Raise(buckets, BucketOf(s[i]), 1);
    }
    assert s[..|s|] == s;
    return Snapshot(|s|, s[0], PercentileValue(s, 0.50), PercentileValue(s, 0.75), PercentileValue(s, 0.90),
                    PercentileValue(s, 0.95), PercentileValue(s, 0.99), PercentileValue(s, 0.999), s[|s| - 1], buckets);
  }

  /** `percentile` of the way from the first of `n` samples to the last, rounded to the nearest. */
  function NearestRank(n: nat, percentile: real): int {
    (percentile * ((n - 1) as real) + 0.5).Floor
  }

  lemma RankIsFloor(n: nat, percentile: real)
    requires n > 0 && 0.0 <= percentile <= 1.0
    ensures NearestRank(n, percentile) == RankIndex(n, percentile)
  {
    hide RankIndex;
    RankIsNearest(n, percentile);
  }

  /** Of the samples in order, the value is the one nearest to `percentile` of the way from the
      first to the last: a sample, and at most x exactly when more than that rank of them are. */
  ghost predicate IsPercentile(samples: seq<nat>, percentile: real, value: nat) {
    && value in samples
    && forall x: nat ::
         value <= x <==> CountAtMost(samples, x) > NearestRank(|samples|, percentile)
  }

  lemma PercentileField(samples: seq<nat>, percentile: real)
    requires samples != [] && 0.0 <= percentile <= 1.0
    ensures IsPercentile(samples, percentile, PercentileValue(Sort(samples), percentile))
  {
    hide Sort, PercentileValue, RankIndex, NearestRank;
    PercentileIsNearestRank(samples, percentile, 0);
    RankIsFloor(|samples|, percentile);
    forall x: nat
      ensures PercentileValue(Sort(samples), percentile) <= x
              <==> CountAtMost(samples, x) > NearestRank(|samples|, percentile)
    {
      PercentileIsNearestRank(samples, percentile, x);
    }
  }

  /** Each percentile of a snapshot, by counting samples. */
  lemma SnapshotPercentiles(samples: seq<nat>)
    requires samples != []
    ensures var x := SnapshotOf(samples);
            && IsPercentile(samples, 0.0, x.min) && IsPercentile(samples, 1.0, x.max)
            && IsPercentile(samples, 0.5, x.p50) && IsPercentile(samples, 0.75, x.p75)
            && IsPercentile(samples, 0.9, x.p90) && IsPercentile(samples, 0.95, x.p95)
            && IsPercentile(samples, 0.99, x.p99) && IsPercentile(samples, 0.999, x.p999)
  {
    hide Sort, Histogram, PercentileValue, IsPercentile;
    PercentileField(samples, 0.0);
    PercentileField(samples, 0.5);
    PercentileField(samples, 0.75);
    PercentileField(samples, 0.9);
    PercentileField(samples, 0.95);
    PercentileField(samples, 0.99);
    PercentileField(samples, 0.999);
    PercentileField(samples, 1.0);
  }

  lemma {:induction false} CountSnoc(s: seq<nat>, y: nat, x: nat)
    ensures CountAtMost(s + [y], x) == CountAtMost(s, x) + if y <= x then 1 else 0
  {
    if s == [] {
      assert [] + [y] == [y];
    } else {
      CountSnoc(s[1..], y, x);
      assert (s + [y])[1..] == s[1..] + [y];
    }
  }

  lemma CountBelowNext(samples: seq<nat>, b: nat)
    requires b < BUCKETS
    ensures CountIn(samples, b)
         == (if b + 1 < BUCKETS then CountAtMost(samples, BOUNDS[b + 1]) else |samples|)
            - (if b > 0 then CountAtMost(samples, BOUNDS[b]) else 0)
  {
    hide BucketOf;
    if samples == [] {
    } else {
      var earlier, last := samples[..|samples| - 1], samples[|samples| - 1];
      CountBelowNext(earlier, b);
      BucketsInNanoseconds(last, b);
      CountSnoc(earlier, last, BOUNDS[b]);
      if b + 1 < BUCKETS {
        CountSnoc(earlier, last, BOUNDS[b + 1]);
      }
      assert samples == earlier + [last];
    }
  }

  /** Each bucket of a snapshot counts the samples above its lower bound and not above its
      upper one, in nanoseconds; the first has no lower and the last no upper bound. */
  lemma SnapshotBuckets(samples: seq<nat>, b: nat)
    requires b < BUCKETS
    ensures |SnapshotOf(samples).buckets| == BUCKETS
    ensures SnapshotOf(samples).buckets[b]
         == (if b + 1 < BUCKETS then CountAtMost(samples, BOUNDS[b + 1]) else |samples|)
            - (if b > 0 then CountAtMost(samples, BOUNDS[b]) else 0)
  {
    hide Sort, CountIn, PercentileValue;
    SortSorts(samples);
    if samples != [] {
      CountBelowNext(Sort(samples), b);
      CountIgnoresOrder(samples, BOUNDS[b]);
      if b + 1 < BUCKETS {
        CountIgnoresOrder(samples, BOUNDS[b + 1]);
      }
      assert |Sort(samples)| == |multiset(Sort(samples))| == |samples|;
    }
  }

  /** The order in which the samples arrived does not matter. */
  lemma SnapshotIgnoresOrder(a: seq<nat>, b: seq<nat>)
    requires multiset(a) == multiset(b)
    ensures SnapshotOf(a) == SnapshotOf(b)
  {
    hide Sort;
    SortSorts(a);
    SortSorts(b);
    SortedIsUnique(Sort(a), Sort(b));
    assert |multiset(a)| == |a| && |multiset(b)| == |b|;
  }

  lemma PercentilesGrow(s: seq<nat>, p: real, q: real)
    requires Sorted(s) && 0.0 <= p <= q <= 1.0
    ensures PercentileValue(s, p) <= PercentileValue(s, q)
  {
    if s != [] {
      RankGrows(|s|, p, q);
    }
  }

  /** A snapshot is ordered and accounts for every sample. */
  lemma SnapshotIsOrdered(samples: seq<nat>)
    ensures var x := SnapshotOf(samples);
            && x.min <= x.p50 <= x.p75 <= x.p90 <= x.p95 <= x.p99 <= x.p999 <= x.max
            && Sum(x.buckets) == x.count == |samples|
            && (forall y | y in samples :: x.min <= y <= x.max)
  {
    hide Sort, Histogram, PercentileValue;
    var s := Sort(samples);
    SortSorts(samples);
    if samples == [] {
      SumOfZeros(Zeros(BUCKETS));
    } else {
      PercentilesGrow(s, 0.0, 0.50);
      PercentilesGrow(s, 0.50, 0.75);
      PercentilesGrow(s, 0.75, 0.90);
      PercentilesGrow(s, 0.90, 0.95);
      PercentilesGrow(s, 0.95, 0.99);
      PercentilesGrow(s, 0.99, 0.999);
      PercentilesGrow(s, 0.999, 1.0);
      BucketsAddUp(s);
      ExtremesAreEnds(s);
      forall y | y in samples
        ensures s[0] <= y <= s[|s| - 1]
      {
        assert y in multiset(samples);
        assert y in s;
      }
    }
  }
}
