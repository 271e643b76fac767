/**
 What a percentile means: the reported value is the bucket boundary that
 stands for the ceil(p*n)-th smallest sample.
 */
module OrderStatistics {
  import opened Histogram
  import opened Permutations

  // ---- The histogram of a list of samples ----

  function InBucket(i: nat): real -> bool {
    x => BucketOf(x) == i
  }

  function UpToBucket(i: nat): real -> bool {
    x => BucketOf(x) <= i
  }

  function HistOf(samples: seq<real>): (h: seq<int>)
    ensures |h| == NUM_BUCKETS
    ensures NonNegative(h)
  {
    seq(NUM_BUCKETS, i requires 0 <= i => Count(samples, InBucket(i)))
  }

  lemma HistPermuted(a: seq<real>, b: seq<real>)
    requires multiset(a) == multiset(b)
    ensures HistOf(a) == HistOf(b)
  {
    forall i: nat | i < NUM_BUCKETS
      ensures Count(a, InBucket(i)) == Count(b, InBucket(i))
    {
      CountPermuted(a, b, InBucket(i));
    }
  }

  // ---- Running counts ----

  lemma {:induction false} UpToStep(samples: seq<real>, i: nat)
    ensures Count(samples, UpToBucket(0)) == Count(samples, InBucket(0))
    ensures Count(samples, UpToBucket(i + 1)) == Count(samples, UpToBucket(i)) + Count(samples, InBucket(i + 1))
  {
    if samples != [] {
      UpToStep(samples[..|samples| - 1], i);
    }
  }

  lemma {:induction false} PrefixIsCount(samples: seq<real>, i: nat)
    requires i < NUM_BUCKETS
    ensures Prefix(HistOf(samples), i + 1) == Count(samples, UpToBucket(i))
  {
    var h := HistOf(samples);
    PrefixStep(h, i);
    if i == 0 {
      assert h[..0] == [];
      UpToStep(samples, 0);
    } else {
      PrefixIsCount(samples, i - 1);
      UpToStep(samples, i - 1);
    }
  }

  lemma HistTotal(samples: seq<real>)
    ensures Sum(HistOf(samples)) == |samples|
  {
    var h := HistOf(samples);
    PrefixIsCount(samples, OVERFLOW);
    assert h[..NUM_BUCKETS] == h;
    CountEverything(samples, UpToBucket(OVERFLOW));
  }

  // ---- Sorted samples ----

  ghost predicate Sorted(s: seq<real>) {
    forall i, j :: 0 <= i <= j < |s| ==> s[i] <= s[j]
  }

  lemma BucketMonotone(x: real, y: real)
    requires x <= y
    ensures BucketOf(x) <= BucketOf(y)
  {
    if BucketOf(y) < OVERFLOW {
      BucketAtMost(x, BucketOf(y));
    }
  }

  lemma SortedBuckets(s: seq<real>, b: nat)
    requires Sorted(s)
    ensures forall i, j :: 0 <= i <= j < |s| && UpToBucket(b)(s[j]) ==> UpToBucket(b)(s[i])
  {
    forall i, j | 0 <= i <= j < |s|
      ensures BucketOf(s[i]) <= BucketOf(s[j])
    {
      BucketMonotone(s[i], s[j]);
    }
  }

  lemma RankedBucket(s: seq<real>, k: nat)
    requires Sorted(s) && 1 <= k <= |s|
    ensures FirstReaching(HistOf(s), k, 0) == BucketOf(s[k - 1])
  {
    var h := HistOf(s);
    var r := FirstReaching(h, k, 0);
    var x := BucketOf(s[k - 1]);
    PrefixIsCount(s, x);
    SortedBuckets(s, x);
    CountReaches(s, UpToBucket(x), k);
    assert r <= x;
    PrefixIsCount(s, r);
    SortedBuckets(s, r);
    CountReaches(s, UpToBucket(r), k);
  }

  /** The latency a sample is reported as: the least bound not below it, or 5000 beyond them all. */
  ghost predicate Represents(v: real, x: real) {
    var bounds := [1.0, 2.0, 5.0, 10.0, 25.0, 50.0, 100.0, 250.0, 500.0, 1000.0, 2500.0, 5000.0];
    && (x <= 5000.0 ==>
          && v in bounds && x <= v
          && (forall b :: b in bounds && x <= b ==> v <= b)
          && (1.0 < x ==> v < 2.5 * x))
    && (5000.0 < x ==> v == 5000.0)
  }

  lemma BoundaryRepresents(x: real)
    ensures Represents(BoundaryOf(BucketOf(x)), x)
  {
    var r := BucketOf(x);
    BucketFromCovers(x, 0);
    if r < OVERFLOW {
      BoundariesMonotone(r, r);
      forall b | b in BOUNDARIES && x <= b
        ensures BOUNDARIES[r] <= b
      {
        var j :| 0 <= j < |BOUNDARIES| && BOUNDARIES[j] == b;
        BucketAtMost(x, j);
        BoundariesMonotone(r, j);
      }
      if 0 < r {
        BoundariesMonotone(r - 1, r);
        assert BOUNDARIES[r - 1] < x;
      } else {
        assert BOUNDARIES[0] == 1.0;
      }
    } else {
      assert BOUNDARIES[OVERFLOW - 1] < x;
    }
  }

  /**
   For every non-empty list of samples and every 0 < p <= 1, the percentile of
   their histogram stands for the ceil(p*n)-th smallest sample.
   */
  lemma PercentileNamesOrderStatistic(samples: seq<real>, sorted: seq<real>, q: Quantile)
    requires samples != [] && q.Valid()
    requires Sorted(sorted) && multiset(sorted) == multiset(samples)
    ensures |sorted| == |samples|
    ensures 1 <= Rank(q, |samples|) <= |samples|
    ensures Represents(PercentileOf(HistOf(samples), q), sorted[Rank(q, |samples|) - 1])
  {
    PermutationLength(samples, sorted);
    HistPermuted(samples, sorted);
    HistTotal(sorted);
    RankInRange(q, |sorted|);
    var k := Rank(q, |sorted|);
    RankedBucket(sorted, k);
    BoundaryRepresents(sorted[k - 1]);
  }

  /** No samples: the percentile is 0. */
  lemma PercentileOfNothing(q: Quantile)
    requires q.Valid()
    ensures PercentileOf(HistOf([]), q) == 0.0
  {
    HistTotal([]);
  }

  /** v stands for the nearest-rank percentile of the samples: the one at ceil(percent * n / 100) when sorted. */
  ghost predicate NearestRank(v: real, samples: seq<real>, percent: nat) {
    var n := |samples|;
    if n == 0 then v == 0.0
    else
      forall sorted: seq<real> :: Sorted(sorted) && multiset(sorted) == multiset(samples) ==>
        |sorted| == n && 0 <= (percent * n + 99) / 100 - 1 < n && Represents(v, sorted[(percent * n + 99) / 100 - 1])
  }

  lemma PercentileIsNearestRank(samples: seq<real>, percent: nat)
    requires 1 <= percent <= 100
    ensures NearestRank(PercentileOf(HistOf(samples), Quantile(percent, 100)), samples, percent)
  {
    if samples == [] {
      PercentileOfNothing(Quantile(percent, 100));
    } else {
      forall sorted: seq<real> | Sorted(sorted) && multiset(sorted) == multiset(samples)
        ensures |sorted| == |samples| && 0 <= (percent * |samples| + 99) / 100 - 1 < |samples|
        ensures Represents(PercentileOf(HistOf(samples), Quantile(percent, 100)), sorted[(percent * |samples| + 99) / 100 - 1])
      {
        PercentileNamesOrderStatistic(samples, sorted, Quantile(percent, 100));
      }
    }
  }

  /** The three percentiles every result carries, named by their numbers. */
  lemma ReportedPercentiles(samples: seq<real>)
    ensures NearestRank(PercentileOf(HistOf(samples), P50), samples, 50)
    ensures NearestRank(PercentileOf(HistOf(samples), P95), samples, 95)
    ensures NearestRank(PercentileOf(HistOf(samples), P99), samples, 99)
  {
    PercentileIsNearestRank(samples, 50);
    PercentileIsNearestRank(samples, 95);
    PercentileIsNearestRank(samples, 99);
  }
}
