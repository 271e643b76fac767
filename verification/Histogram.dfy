/**
 The latency histogram: bucket boundaries, bucket choice, merging of bucket
 counts and percentile lookup. The worker and the backend each carry a copy of
 this logic (worker/internal/runner/histogram.go, backend/internal/store/histogram.go);
 the two copies are the same code and are modelled once.
 */
module Histogram {
  import opened Permutations

  const BOUNDARIES: seq<real> :=
    [1.0, 2.0, 5.0, 10.0, 25.0, 50.0, 100.0, 250.0, 500.0, 1000.0, 2500.0, 5000.0]

  const OVERFLOW: nat := 12        // the slot beyond the last boundary
  const NUM_BUCKETS: nat := 13
  const LAST_BOUNDARY: real := 5000.0

  /** A nearest-rank percentile, kept as the exact fraction num/den. */
  datatype Quantile = Quantile(num: int, den: int) {
    ghost predicate Valid() { 0 < num <= den }
  }
  const P50 := Quantile(50, 100)
  const P95 := Quantile(95, 100)
  const P99 := Quantile(99, 100)

  // ---- Sums over bucket counts ----

  function Sum(b: seq<int>): int {
    if b == [] then 0 else Sum(b[..|b| - 1]) + b[|b| - 1]
  }

  lemma {:induction false} SumAppend(a: seq<int>, b: seq<int>)
    ensures Sum(a + b) == Sum(a) + Sum(b)
  {
    if b == [] {
      assert a + b == a;
    } else {
      SumAppend(a, b[..|b| - 1]);
      assert (a + b)[..|a + b| - 1] == a + b[..|b| - 1];
    }
  }

  lemma {:induction false} SumSplit(b: seq<int>, i: nat)
    requires i <= |b|
    ensures Sum(b) == Sum(b[..i]) + Sum(b[i..])
  {
    assert b == b[..i] + b[i..];
    SumAppend(b[..i], b[i..]);
  }

  ghost predicate NonNegative(b: seq<int>) {
    forall i :: 0 <= i < |b| ==> 0 <= b[i]
  }

  lemma {:induction false} SumNonNegative(b: seq<int>)
    requires NonNegative(b)
    ensures 0 <= Sum(b)
  {
    if b != [] {
      SumNonNegative(b[..|b| - 1]);
    }
  }

  /** The running count after the first i buckets. */
  function Prefix(b: seq<int>, i: nat): int
    requires i <= |b|
  {
    Sum(b[..i])
  }

  lemma PrefixStep(b: seq<int>, i: nat)
    requires i < |b|
    ensures Prefix(b, i + 1) == Prefix(b, i) + b[i]
  {
    assert b[..i + 1][..i] == b[..i];
  }

  // ---- Bucket choice ----

  function BucketFrom(x: real, i: nat): (r: nat)
    requires i <= OVERFLOW
    ensures i <= r <= OVERFLOW
    decreases OVERFLOW - i
  {
    if i == OVERFLOW then OVERFLOW else if x <= BOUNDARIES[i] then i else BucketFrom(x, i + 1)
  }

  /** The bucket a sample belongs to. */
  function BucketOf(x: real): (r: nat)
    ensures r <= OVERFLOW
  {
    BucketFrom(x, 0)
  }

  /** r is the first bucket whose bound covers x, or the overflow bucket. */
  ghost predicate FirstCovering(x: real, r: nat) {
    && r <= OVERFLOW
    && (forall j :: 0 <= j < r ==> BOUNDARIES[j] < x)
    && (r < OVERFLOW ==> x <= BOUNDARIES[r])
  }

  lemma {:induction false} BucketFromCovers(x: real, i: nat)
    requires i <= OVERFLOW
    requires forall j :: 0 <= j < i ==> BOUNDARIES[j] < x
    ensures FirstCovering(x, BucketFrom(x, i))
    decreases OVERFLOW - i
  {
    if i < OVERFLOW && BOUNDARIES[i] < x {
      BucketFromCovers(x, i + 1);
    }
  }

  lemma FirstCoveringUnique(x: real, r: nat, t: nat)
    requires FirstCovering(x, r) && FirstCovering(x, t)
    ensures r == t
  {
  }

  /** A sample lies in one of the first i+1 buckets exactly when boundary i covers it. */
  lemma BucketAtMost(x: real, i: nat)
    requires i < OVERFLOW
    ensures BucketOf(x) <= i <==> x <= BOUNDARIES[i]
  {
    BucketFromCovers(x, 0);
    if BucketOf(x) <= i {
      BoundariesMonotone(BucketOf(x), i);
    }
  }

  lemma BoundariesMonotone(i: nat, j: nat)
    requires i <= j < OVERFLOW
    ensures BOUNDARIES[i] <= BOUNDARIES[j] <= LAST_BOUNDARY
    ensures i < j ==> BOUNDARIES[j] <= 2.5 * BOUNDARIES[j - 1]
  {
  }

  method BucketIndex(latencyMs: real) returns (index: nat)
    ensures FirstCovering(latencyMs, index)
    ensures index == BucketOf(latencyMs)
  {
    BucketFromCovers(latencyMs, 0);
    for i := 0 to |BOUNDARIES|
      invariant forall j :: 0 <= j < i ==> BOUNDARIES[j] < latencyMs
    {
      if latencyMs <= BOUNDARIES[i] {
        FirstCoveringUnique(latencyMs, i, BucketOf(latencyMs));
        return i;
      }
    }
    FirstCoveringUnique(latencyMs, OVERFLOW, BucketOf(latencyMs));
    return NUM_BUCKETS - 1;
  }

  // ---- Percentile lookup ----

  /** ceil(p * total), the nearest rank. */
  function Rank(q: Quantile, total: int): int
    requires q.den > 0
  {
    (q.num * total + q.den - 1) / q.den
  }

  /** Least bucket whose running count reaches the threshold, or |b| when none does. */
  function FirstReaching(b: seq<int>, threshold: int, i: nat): (r: nat)
    requires i <= |b|
    ensures i <= r <= |b|
    ensures forall j :: i < j <= r ==> Prefix(b, j) < threshold
    ensures r < |b| ==> threshold <= Prefix(b, r + 1)
    decreases |b| - i
  {
    if i == |b| || threshold <= Prefix(b, i + 1) then i else FirstReaching(b, threshold, i + 1)
  }

  /** The boundary a bucket stands for; overflow reports the last boundary. */
  function BoundaryOf(i: nat): real {
    if i < |BOUNDARIES| then BOUNDARIES[i] else LAST_BOUNDARY
  }

  function PercentileOf(b: seq<int>, q: Quantile): real
    requires q.den > 0
  {
    if Sum(b) == 0 then 0.0
    else
      var r := FirstReaching(b, Rank(q, Sum(b)), 0);
      if r < |b| then BoundaryOf(r) else LAST_BOUNDARY
  }

  /**
   The value is the bound of the first bucket at which the running count reaches the rank; the last
   bound for the overflow bucket, or if none reaches it.
   */
  ghost predicate ReachesRank(b: seq<int>, rank: int, value: real) {
    var bounds := [1.0, 2.0, 5.0, 10.0, 25.0, 50.0, 100.0, 250.0, 500.0, 1000.0, 2500.0, 5000.0];
    || (exists i :: 0 < i <= |b| && rank <= Prefix(b, i) && (forall j :: 0 < j < i ==> Prefix(b, j) < rank)
                    && value == if i <= 12 then bounds[i - 1] else 5000.0)
    || ((forall i :: 0 < i <= |b| ==> Prefix(b, i) < rank) && value == 5000.0)
  }

  lemma PercentileReachesRank(b: seq<int>, rank: int)
    ensures var r := FirstReaching(b, rank, 0); ReachesRank(b, rank, if r < |b| then BoundaryOf(r) else LAST_BOUNDARY)
  {
    var r := FirstReaching(b, rank, 0);
    if r < |b| {
      assert rank <= Prefix(b, r + 1) && forall j :: 0 < j < r + 1 ==> Prefix(b, j) < rank;
    }
  }

  /** The value is 0 without samples, and otherwise the bound at which the nearest rank is reached. */
  ghost predicate IsPercentile(b: seq<int>, q: Quantile, value: real)
    requires q.den > 0
  {
    if Sum(b) == 0 then value == 0.0 else ReachesRank(b, (q.num * Sum(b) + q.den - 1) / q.den, value)
  }

  /** For any counts, of whatever length and sign, and any fraction. */
  lemma PercentileOfIsPercentile(b: seq<int>, q: Quantile)
    requires q.den > 0
    ensures IsPercentile(b, q, PercentileOf(b, q))
  {
    PercentileReachesRank(b, Rank(q, Sum(b)));
  }

  method Percentile(buckets: seq<int>, q: Quantile) returns (value: real)
    requires q.den > 0
    ensures value == PercentileOf(buckets, q)
  {
    var total := 0;
    for i := 0 to |buckets|
      invariant total == Prefix(buckets, i)
    {
      PrefixStep(buckets, i);
      total := total + buckets[i];
    }
    assert buckets[..|buckets|] == buckets;
    if total == 0 {
      return 0.0;
    }
    var threshold := (q.num * total + q.den - 1) / q.den;
    var cumulative := 0;
    for i := 0 to |buckets|
      invariant cumulative == Prefix(buckets, i)
      invariant FirstReaching(buckets, threshold, 0) == FirstReaching(buckets, threshold, i)
    {
      PrefixStep(buckets, i);
      cumulative := cumulative + buckets[i];
      if cumulative >= threshold {
        if i < |BOUNDARIES| {
          return BOUNDARIES[i];
        }
        return BOUNDARIES[|BOUNDARIES| - 1];
      }
    }
    return BOUNDARIES[|BOUNDARIES| - 1];
  }

  lemma MulMonotone(a: int, b: int, c: int)
    requires a <= b && 0 <= c
    ensures a * c <= b * c
  {
  }

  lemma DivMonotone(a: int, b: int, d: int)
    requires 0 < d && a <= b
    ensures a / d <= b / d
  {
    var x, y := a / d, b / d;
    assert a == x * d + a % d && b == y * d + b % d;
    assert x * d < (y + 1) * d;
    MulCancel(x, y + 1, d);
  }

  lemma MulCancel(x: int, y: int, d: int)
    requires 0 < d && x * d < y * d
    ensures x < y
  {
    if y <= x {
      MulMonotone(y, x, d);
    }
  }

  lemma RankMonotone(n1: int, n2: int, den: int, total: int)
    requires 0 < den && n1 <= n2 && 0 <= total
    ensures Rank(Quantile(n1, den), total) <= Rank(Quantile(n2, den), total)
  {
    MulMonotone(n1, n2, total);
    DivMonotone(n1 * total + den - 1, n2 * total + den - 1, den);
  }

  /** The rank of a valid quantile names an existing sample. */
  lemma RankInRange(q: Quantile, total: int)
    requires q.Valid() && 0 < total
    ensures 1 <= Rank(q, total) <= total
    ensures q.num * total <= Rank(q, total) * q.den < q.num * total + q.den
  {
    var a := q.num * total;
    MulMonotone(q.num, q.den, total);
    MulMonotone(1, q.num, total);
    CeilingBounds(a, q.den);
    MulCancel(0, Rank(q, total), q.den);
    assert Rank(q, total) * q.den < (total + 1) * q.den;
    MulCancel(Rank(q, total), total + 1, q.den);
  }

  lemma CeilingBounds(a: int, d: int)
    requires 0 < d
    ensures a <= ((a + d - 1) / d) * d < a + d
  {
  }

  /** A larger fraction never reports a smaller latency, so p50 <= p95 <= p99. */
  lemma PercentileMonotone(b: seq<int>, n1: int, n2: int, den: int)
    requires 0 < den && n1 <= n2 && 0 <= Sum(b)
    ensures PercentileOf(b, Quantile(n1, den)) <= PercentileOf(b, Quantile(n2, den))
  {
    RankMonotone(n1, n2, den, Sum(b));
    var i := FirstReaching(b, Rank(Quantile(n1, den), Sum(b)), 0);
    var j := FirstReaching(b, Rank(Quantile(n2, den), Sum(b)), 0);
    assert i <= j;
    assert BoundaryOf(i) <= BoundaryOf(j) by {
      if j < |BOUNDARIES| {
        BoundariesMonotone(i, j);
      } else if i < |BOUNDARIES| {
        BoundariesMonotone(i, i);
      }
    }
  }

  lemma PercentilesOrdered(b: seq<int>)
    requires NonNegative(b)
    ensures PercentileOf(b, P50) <= PercentileOf(b, P95) <= PercentileOf(b, P99)
  {
    SumNonNegative(b);
    PercentileMonotone(b, 50, 95, 100);
    PercentileMonotone(b, 95, 99, 100);
  }

  // ---- Element-wise merging ----

  function Entry(b: seq<int>, i: nat): int {
    if i < |b| then b[i] else 0
  }

  /** What bucket i of the merged histogram holds: the sum of the shards' bucket i. */
  function ColumnSum(shards: seq<seq<int>>, i: nat): int {
    if shards == [] then 0
    else ColumnSum(shards[..|shards| - 1], i) + Entry(shards[|shards| - 1], i)
  }

  function MergeOf(shards: seq<seq<int>>): (r: seq<int>)
    ensures |r| == NUM_BUCKETS
  {
    seq(NUM_BUCKETS, i requires 0 <= i => ColumnSum(shards, i))
  }

  method MergeBuckets(shards: seq<seq<int>>) returns (merged: array<int>)
    ensures fresh(merged)
    ensures merged[..] == MergeOf(shards)
    ensures forall i :: 0 <= i < 13 ==>
      merged[..][i] == Sum(seq(|shards|, k requires 0 <= k < |shards| => if i < |shards[k]| then shards[k][i] else 0))
  {
    merged := new int[|BOUNDARIES| + 1](_ => 0);
    for k := 0 to |shards|
      invariant fresh(merged) && merged.Length == NUM_BUCKETS
      invariant forall j :: 0 <= j < NUM_BUCKETS ==> merged[j] == ColumnSum(shards[..k], j)
    {
      var b := shards[k];
      assert shards[..k + 1][..k] == shards[..k];
      var i := 0;
      while i < |b| && i < merged.Length
        invariant 0 <= i <= |b| && i <= NUM_BUCKETS
        invariant forall j :: 0 <= j < i ==> merged[j] == ColumnSum(shards[..k + 1], j)
        invariant forall j :: i <= j < NUM_BUCKETS ==> merged[j] == ColumnSum(shards[..k], j)
      {
        merged[i] := merged[i] + b[i];
        i := i + 1;
      }
    }
    assert shards[..|shards|] == shards;
    forall i | 0 <= i < 13
      ensures merged[..][i] == Sum(seq(|shards|, k requires 0 <= k < |shards| => if i < |shards[k]| then shards[k][i] else 0))
    {
      ColumnSumIsSum(shards, i, seq(|shards|, k requires 0 <= k < |shards| => if i < |shards[k]| then shards[k][i] else 0));
    }
  }

  lemma {:induction false} ColumnSumIsSum(shards: seq<seq<int>>, i: nat, column: seq<int>)
    requires |column| == |shards|
    requires forall k :: 0 <= k < |shards| ==> column[k] == if i < |shards[k]| then shards[k][i] else 0
    ensures ColumnSum(shards, i) == Sum(column)
  {
    if shards != [] {
      ColumnSumIsSum(shards[..|shards| - 1], i, column[..|shards| - 1]);
    }
  }

  lemma {:induction false} ColumnSumAppend(a: seq<seq<int>>, b: seq<seq<int>>, i: nat)
    ensures ColumnSum(a + b, i) == ColumnSum(a, i) + ColumnSum(b, i)
  {
    if b == [] {
      assert a + b == a;
    } else {
      ColumnSumAppend(a, b[..|b| - 1], i);
      assert (a + b)[..|a + b| - 1] == a + b[..|b| - 1];
    }
  }

  lemma {:induction false} ColumnSumPermuted(a: seq<seq<int>>, b: seq<seq<int>>, i: nat)
    requires multiset(a) == multiset(b)
    ensures ColumnSum(a, i) == ColumnSum(b, i)
    decreases |a|
  {
    PermutationLength(a, b);
    if a != [] {
      var n := |a| - 1;
      var k := MatchLast(a, b);
      ColumnSumPermuted(a[..n], b[..k] + b[k + 1..], i);
      ColumnSumAppend(b[..k], b[k + 1..], i);
      assert b == b[..k] + [b[k]] + b[k + 1..];
      ColumnSumAppend(b[..k] + [b[k]], b[k + 1..], i);
      ColumnSumAppend(b[..k], [b[k]], i);
      assert [b[k]][..0] == [];
    }
  }

  /** The scan order of the shard rows does not matter: the query has no ORDER BY. */
  lemma MergeOrderIrrelevant(a: seq<seq<int>>, b: seq<seq<int>>)
    requires multiset(a) == multiset(b)
    ensures MergeOf(a) == MergeOf(b)
  {
    forall i: nat | i < NUM_BUCKETS
      ensures ColumnSum(a, i) == ColumnSum(b, i)
    {
      ColumnSumPermuted(a, b, i);
    }
  }

  function MergeGroups(groups: seq<seq<seq<int>>>): seq<seq<int>> {
    if groups == [] then [] else MergeGroups(groups[..|groups| - 1]) + [MergeOf(groups[|groups| - 1])]
  }

  function Flatten<T>(groups: seq<seq<T>>): seq<T> {
    if groups == [] then [] else Flatten(groups[..|groups| - 1]) + groups[|groups| - 1]
  }

  lemma {:induction false} ColumnSumGrouped(groups: seq<seq<seq<int>>>, i: nat)
    requires i < NUM_BUCKETS
    ensures ColumnSum(MergeGroups(groups), i) == ColumnSum(Flatten(groups), i)
  {
    if groups != [] {
      var init, last := groups[..|groups| - 1], groups[|groups| - 1];
      ColumnSumGrouped(init, i);
      ColumnSumAppend(Flatten(init), last, i);
      ColumnSumAppend(MergeGroups(init), [MergeOf(last)], i);
      assert [MergeOf(last)][..0] == [];
    }
  }

  /** Merging any grouping of the shards first and the group results afterwards changes nothing. */
  lemma MergeGroupingIrrelevant(groups: seq<seq<seq<int>>>)
    ensures MergeOf(MergeGroups(groups)) == MergeOf(Flatten(groups))
  {
    forall i: nat | i < NUM_BUCKETS
      ensures ColumnSum(MergeGroups(groups), i) == ColumnSum(Flatten(groups), i)
    {
      ColumnSumGrouped(groups, i);
    }
  }

  function Totals(shards: seq<seq<int>>): seq<int> {
    if shards == [] then [] else Totals(shards[..|shards| - 1]) + [Sum(shards[|shards| - 1])]
  }

  function Pad(b: seq<int>): seq<int> {
    seq(NUM_BUCKETS, i requires 0 <= i => Entry(b, i))
  }

  lemma SumPad(b: seq<int>)
    requires |b| <= NUM_BUCKETS
    ensures Sum(Pad(b)) == Sum(b)
  {
    SumSplit(Pad(b), |b|);
    assert Pad(b)[..|b|] == b;
    SumZeros(Pad(b)[|b|..]);
  }

  lemma {:induction false} SumZeros(b: seq<int>)
    requires forall i :: 0 <= i < |b| ==> b[i] == 0
    ensures Sum(b) == 0
  {
    if b != [] {
      SumZeros(b[..|b| - 1]);
    }
  }

  lemma {:induction false} SumPointwise(a: seq<int>, b: seq<int>, c: seq<int>)
    requires |a| == |b| == |c|
    requires forall i :: 0 <= i < |a| ==> c[i] == a[i] + b[i]
    ensures Sum(c) == Sum(a) + Sum(b)
  {
    if a != [] {
      var n := |a| - 1;
      SumPointwise(a[..n], b[..n], c[..n]);
    }
  }

  /** No sample is lost or invented by merging histograms of at most 13 buckets. */
  lemma {:induction false} MergeConservesCount(shards: seq<seq<int>>)
    requires forall k :: 0 <= k < |shards| ==> |shards[k]| <= NUM_BUCKETS
    ensures Sum(MergeOf(shards)) == Sum(Totals(shards))
  {
    if shards == [] {
      SumZeros(MergeOf(shards));
    } else {
      var init, last := shards[..|shards| - 1], shards[|shards| - 1];
      MergeConservesCount(init);
      SumPad(last);
      SumPointwise(MergeOf(init), Pad(last), MergeOf(shards));
      assert (Totals(init) + [Sum(last)])[..|init|] == Totals(init) by { TotalsLength(init); }
      TotalsLength(init);
    }
  }

  lemma {:induction false} TotalsLength(shards: seq<seq<int>>)
    ensures |Totals(shards)| == |shards|
  {
    if shards != [] {
      TotalsLength(shards[..|shards| - 1]);
    }
  }
}
