/**
 Combining the shards' partial results into the run's result
 (aggregateRun and runPercentiles in backend/internal/store/test_run_store.go).
 */
module Aggregation {
  import opened Wrappers
  import opened Histogram
  import opened OrderStatistics
  import opened Permutations
  import opened Stats
  import opened Tables

  /** What the first aggregate query scans: SUM and MIN/MAX skip NULLs. */
  datatype Totals = Totals(
    total: int, success: int, failed: int, latencyCount: int, sumMs: real,
    minMs: Option<real>, maxMs: Option<real>, failedShards: nat)

  const ZERO := Totals(0, 0, 0, 0, 0.0, None, None, 0)

  function Weighted(p: Partial): real {
    if p.avgMs.Some? && p.latencyCount.Some? then p.avgMs.value * p.latencyCount.value as real else 0.0
  }

  /** MIN(...) FILTER (WHERE latency_count > 0), one row at a time. */
  function Least(acc: Option<real>, p: Partial): Option<real> {
    if p.latencyCount.GetOr(0) > 0 && p.minMs.Some? then
      Some(if acc.None? || p.minMs.value < acc.value then p.minMs.value else acc.value)
    else acc
  }

  function Greatest(acc: Option<real>, p: Partial): Option<real> {
    if p.latencyCount.GetOr(0) > 0 && p.maxMs.Some? then
      Some(if acc.None? || p.maxMs.value > acc.value then p.maxMs.value else acc.value)
    else acc
  }

  function AddRow(t: Totals, row: ShardRow): Totals {
    var p := row.partial;
    Totals(t.total + p.total.GetOr(0), t.success + p.success.GetOr(0), t.failed + p.failed.GetOr(0),
           t.latencyCount + p.latencyCount.GetOr(0), t.sumMs + Weighted(p),
           Least(t.minMs, p), Greatest(t.maxMs, p),
           t.failedShards + if row.status.ShardFailed? then 1 else 0)
  }

  function SumRows(rows: seq<ShardRow>): Totals {
    if rows == [] then ZERO else AddRow(SumRows(rows[..|rows| - 1]), rows[|rows| - 1])
  }

  /** The histograms the second query returns: rows with a NULL histogram are skipped. */
  function Histograms(rows: seq<ShardRow>): seq<seq<int>> {
    if rows == [] then []
    else
      var init, b := Histograms(rows[..|rows| - 1]), rows[|rows| - 1].partial.buckets;
      if b.Some? then init + [b.value] else init
  }

  datatype Percentiles = Percentiles(p50Ms: real, p95Ms: real, p99Ms: real)

  function PercentilesOf(b: seq<int>): Percentiles {
    Percentiles(PercentileOf(b, P50), PercentileOf(b, P95), PercentileOf(b, P99))
  }

  function RunPercentilesOf(rows: seq<ShardRow>): Percentiles {
    PercentilesOf(MergeOf(Histograms(rows)))
  }

  /** The result columns written by the final UPDATE; an SQL NULL min or max becomes 0. */
  function ColumnsFrom(t: Totals, p: Percentiles): Columns {
    Columns(Some(t.total), Some(t.success), Some(t.failed),
            Some(if t.latencyCount > 0 then t.sumMs / t.latencyCount as real else 0.0),
            Some(t.minMs.GetOr(0.0)), Some(t.maxMs.GetOr(0.0)),
            Some(p.p50Ms), Some(p.p95Ms), Some(p.p99Ms))
  }

  function ColumnsOf(rows: seq<ShardRow>): Columns {
    ColumnsFrom(SumRows(rows), RunPercentilesOf(rows))
  }

  function StatusFrom(t: Totals, current: RunStatus): RunStatus {
    if current.Cancelling? then Cancelled else if t.failedShards > 0 then Failed else Completed
  }

  function ErrorFrom(t: Totals, current: RunStatus): Option<ErrorText> {
    if current.Cancelling? then Some(CancelledByUser)
    else if t.failedShards > 0 then Some(ShardsFailed(t.failedShards)) else None
  }

  /** The numbers are the median, the 95th and the 99th percentile of these samples. */
  ghost predicate NamesPercentiles(p: Percentiles, samples: seq<real>) {
    NearestRank(p.p50Ms, samples, 50) && NearestRank(p.p95Ms, samples, 95) && NearestRank(p.p99Ms, samples, 99)
  }

  /** runPercentiles, whatever samples the shards' histograms have counted. */
  method RunPercentiles(rows: seq<ShardRow>) returns (p: Percentiles)
    ensures p == RunPercentilesOf(rows)
    ensures forall samples: seq<real> :: MergeOf(Histograms(rows)) == HistOf(samples) ==> NamesPercentiles(p, samples)
  {
    var all: seq<seq<int>> := [];
    for k := 0 to |rows|
      invariant all == Histograms(rows[..k])
    {
      assert rows[..k + 1][..k] == rows[..k];
      if rows[k].partial.buckets.Some? {
        all := all + [rows[k].partial.buckets.value];
      }
    }
    assert rows[..|rows|] == rows;
    var merged := MergeBuckets(all);
    var p50 := Percentile(merged[..], P50);
    var p95 := Percentile(merged[..], P95);
    var p99 := Percentile(merged[..], P99);
    p := Percentiles(p50, p95, p99);
    forall samples: seq<real> | MergeOf(Histograms(rows)) == HistOf(samples)
      ensures NamesPercentiles(p, samples)
    {
      ReportedPercentiles(samples);
    }
  }

  // ---- What the first aggregate query computes, for any reports ----

  const TOTAL: Partial -> Option<int> := (p: Partial) => p.total
  const SUCCESS: Partial -> Option<int> := (p: Partial) => p.success
  const FAILED: Partial -> Option<int> := (p: Partial) => p.failed
  const LATENCY_COUNT: Partial -> Option<int> := (p: Partial) => p.latencyCount

  /** One column of the rows, NULL read as zero. */
  function Column(rows: seq<ShardRow>, field: Partial -> Option<int>): (c: seq<int>)
    ensures |c| == |rows|
  {
    seq(|rows|, i requires 0 <= i < |rows| => field(rows[i].partial).GetOr(0))
  }

  /** A row's average times its count, zero when either is NULL. */
  function Product(row: ShardRow): real {
    match (row.partial.avgMs, row.partial.latencyCount)
    case (Some(avg), Some(n)) => avg * n as real
    case _ => 0.0
  }

  function Products(rows: seq<ShardRow>): (c: seq<real>)
    ensures |c| == |rows| && forall i :: 0 <= i < |rows| ==> c[i] == Product(rows[i])
  {
    seq(|rows|, i requires 0 <= i < |rows| => Product(rows[i]))
  }

  /** The row has latency samples. */
  predicate Sampled(row: ShardRow) {
    row.partial.latencyCount.Some? && row.partial.latencyCount.value > 0
  }

  /** m is the least minimum of the sampled rows, NULL if none of them has one. */
  ghost predicate LeastMin(rows: seq<ShardRow>, m: Option<real>) {
    && (m.None? <==> forall i :: 0 <= i < |rows| && Sampled(rows[i]) ==> rows[i].partial.minMs.None?)
    && (m.Some? ==>
          && (exists i :: 0 <= i < |rows| && Sampled(rows[i]) && rows[i].partial.minMs == m)
          && (forall i :: 0 <= i < |rows| && Sampled(rows[i]) && rows[i].partial.minMs.Some? ==>
                m.value <= rows[i].partial.minMs.value))
  }

  ghost predicate GreatestMax(rows: seq<ShardRow>, m: Option<real>) {
    && (m.None? <==> forall i :: 0 <= i < |rows| && Sampled(rows[i]) ==> rows[i].partial.maxMs.None?)
    && (m.Some? ==>
          && (exists i :: 0 <= i < |rows| && Sampled(rows[i]) && rows[i].partial.maxMs == m)
          && (forall i :: 0 <= i < |rows| && Sampled(rows[i]) && rows[i].partial.maxMs.Some? ==>
                m.value >= rows[i].partial.maxMs.value))
  }

  lemma ColumnSnoc(rows: seq<ShardRow>, field: Partial -> Option<int>)
    requires rows != []
    ensures Sum(Column(rows, field)) == Sum(Column(rows[..|rows| - 1], field)) + field(rows[|rows| - 1].partial).GetOr(0)
  {
    assert Column(rows, field)[..|rows| - 1] == Column(rows[..|rows| - 1], field);
  }

  lemma ProductsSnoc(rows: seq<ShardRow>)
    requires rows != []
    ensures SumMs(Products(rows)) == SumMs(Products(rows[..|rows| - 1])) + Weighted(rows[|rows| - 1].partial)
  {
    assert Products(rows)[..|rows| - 1] == Products(rows[..|rows| - 1]);
  }

  lemma LeastSnoc(rows: seq<ShardRow>, m: Option<real>)
    requires rows != [] && LeastMin(rows[..|rows| - 1], m)
    ensures LeastMin(rows, Least(m, rows[|rows| - 1].partial))
  {
    var n, last := |rows| - 1, rows[|rows| - 1];
    assert forall i :: 0 <= i < n ==> rows[..n][i] == rows[i];
    if m.Some? {
      var k :| 0 <= k < n && Sampled(rows[..n][k]) && rows[..n][k].partial.minMs == m;
      assert Sampled(rows[k]) && rows[k].partial.minMs == m;
    }
    assert Sampled(last) && last.partial.minMs.Some? ==> rows[n] == last;
  }

  lemma GreatestSnoc(rows: seq<ShardRow>, m: Option<real>)
    requires rows != [] && GreatestMax(rows[..|rows| - 1], m)
    ensures GreatestMax(rows, Greatest(m, rows[|rows| - 1].partial))
  {
    var n, last := |rows| - 1, rows[|rows| - 1];
    assert forall i :: 0 <= i < n ==> rows[..n][i] == rows[i];
    if m.Some? {
      var k :| 0 <= k < n && Sampled(rows[..n][k]) && rows[..n][k].partial.maxMs == m;
      assert Sampled(rows[k]) && rows[k].partial.maxMs == m;
    }
    assert Sampled(last) && last.partial.maxMs.Some? ==> rows[n] == last;
  }

  /** Counts and sums add up the columns, NULL counting as nothing; extremes come from sampled rows only. */
  lemma {:induction false} TotalsDescribed(rows: seq<ShardRow>)
    ensures var t := SumRows(rows);
      && t.total == Sum(Column(rows, TOTAL)) && t.success == Sum(Column(rows, SUCCESS))
      && t.failed == Sum(Column(rows, FAILED)) && t.latencyCount == Sum(Column(rows, LATENCY_COUNT))
      && t.sumMs == SumMs(Products(rows))
      && LeastMin(rows, t.minMs) && GreatestMax(rows, t.maxMs)
  {
    if rows != [] {
      var n := |rows| - 1;
      TotalsDescribed(rows[..n]);
      ColumnSnoc(rows, TOTAL);
      ColumnSnoc(rows, SUCCESS);
      ColumnSnoc(rows, FAILED);
      ColumnSnoc(rows, LATENCY_COUNT);
      ProductsSnoc(rows);
      LeastSnoc(rows, SumRows(rows[..n]).minMs);
      GreatestSnoc(rows, SumRows(rows[..n]).maxMs);
    }
  }

  // ---- The scan order is irrelevant ----

  lemma AddRowCommutes(t: Totals, a: ShardRow, b: ShardRow)
    ensures AddRow(AddRow(t, a), b) == AddRow(AddRow(t, b), a)
  {
  }

  lemma {:induction false} SumRowsInsert(pre: seq<ShardRow>, x: ShardRow, post: seq<ShardRow>)
    ensures SumRows(pre + [x] + post) == AddRow(SumRows(pre + post), x)
    decreases |post|
  {
    if post == [] {
      assert (pre + [x])[..|pre|] == pre;
      assert pre + post == pre && pre + [x] + post == pre + [x];
    } else {
      var init, y := post[..|post| - 1], post[|post| - 1];
      SumRowsInsert(pre, x, init);
      assert (pre + [x] + post)[..|pre| + |post|] == pre + [x] + init;
      assert (pre + post)[..|pre| + |post| - 1] == pre + init;
      AddRowCommutes(SumRows(pre + init), x, y);
    }
  }

  lemma {:induction false} HistogramsAppend(a: seq<ShardRow>, b: seq<ShardRow>)
    ensures Histograms(a + b) == Histograms(a) + Histograms(b)
  {
    if b == [] {
      assert a + b == a;
    } else {
      HistogramsAppend(a, b[..|b| - 1]);
      assert (a + b)[..|a + b| - 1] == a + b[..|b| - 1];
    }
  }

  lemma {:induction false} RowsPermuted(a: seq<ShardRow>, b: seq<ShardRow>)
    requires multiset(a) == multiset(b)
    ensures SumRows(a) == SumRows(b)
    ensures multiset(Histograms(a)) == multiset(Histograms(b))
    decreases |a|
  {
    PermutationLength(a, b);
    if a != [] {
      var n := |a| - 1;
      var k := MatchLast(a, b);
      var pre, x, post := b[..k], b[k], b[k + 1..];
      RowsPermuted(a[..n], pre + post);
      assert b == pre + [x] + post;
      SumRowsInsert(pre, x, post);
      assert a == a[..n] + [x];
      HistogramsAppend(a[..n], [x]);
      HistogramsAppend(pre + [x], post);
      HistogramsAppend(pre, [x]);
      HistogramsAppend(pre, post);
    }
  }

  /** No ORDER BY is needed: any scan order of a run's shard rows gives the same result. */
  lemma ScanOrderIrrelevant(a: seq<ShardRow>, b: seq<ShardRow>)
    requires multiset(a) == multiset(b)
    ensures ColumnsOf(a) == ColumnsOf(b)
    ensures SumRows(a).failedShards == SumRows(b).failedShards
  {
    RowsPermuted(a, b);
    MergeOrderIrrelevant(Histograms(a), Histograms(b));
  }

  // ---- Two-level merge equals one tally ----

  /** How executeShard maps a runner result into the completion payload. */
  function PartialOf(r: Result): Partial {
    Partial(Some(r.total), Some(r.successful), Some(r.failed), Some(r.latencyCount),
            Some(r.avgMs), Some(r.minMs), Some(r.maxMs), Some(r.buckets))
  }

  /** The columns a run would carry if one tally had seen every request. */
  function ColumnsOfResult(r: Result): Columns {
    Columns(Some(r.total), Some(r.successful), Some(r.failed),
            Some(r.avgMs), Some(r.minMs), Some(r.maxMs), Some(r.p50Ms), Some(r.p95Ms), Some(r.p99Ms))
  }

  /** The row carries the runner's result for these requests, or no result at all. */
  ghost predicate Reports(row: ShardRow, es: seq<Event>) {
    row.partial == PartialOf(ResultOf(Fold(es))) || (row.partial == NO_PARTIAL && es == [])
  }

  ghost predicate AllReport(rows: seq<ShardRow>, groups: seq<seq<Event>>) {
    |rows| == |groups| && forall i :: 0 <= i < |rows| ==> Reports(rows[i], groups[i])
  }

  /** The scanned totals agree with a tally, NULL standing for "no sample". */
  ghost predicate Agrees(t: Totals, u: Tally) {
    && t.total == u.total && t.success == u.success && t.failed == u.failed
    && t.latencyCount == u.latencyCount && t.sumMs == u.sumMs
    && (if u.latencyCount > 0 then t.minMs == Some(u.minMs) && t.maxMs == Some(u.maxMs)
        else t.minMs == None && t.maxMs == None)
  }

  lemma MeanTimesCount(sum: real, n: int)
    requires 0 < n
    ensures (sum / n as real) * n as real == sum
  {
  }

  lemma WeightedIsSum(t: Tally)
    requires 0 < t.latencyCount || (t.latencyCount == 0 && t.sumMs == 0.0)
    ensures Weighted(PartialOf(ResultOf(t))) == t.sumMs
  {
    if 0 < t.latencyCount {
      MeanTimesCount(t.sumMs, t.latencyCount);
    }
  }

  lemma EmptySum(es: seq<Event>)
    ensures Fold(es).latencyCount <= 0 ==> Fold(es).sumMs == 0.0 == Fold(es).minMs == Fold(es).maxMs
  {
    FoldDescribes(es);
  }

  lemma AddRowAgrees(t: Totals, u: Tally, row: ShardRow, es: seq<Event>)
    requires Agrees(t, u) && 0 <= u.latencyCount
    requires row.partial == PartialOf(ResultOf(Fold(es)))
    ensures Agrees(AddRow(t, row), Absorb(u, Fold(es)))
  {
    FoldCountNonNegative(es);
    EmptySum(es);
    WeightedIsSum(Fold(es));
  }

  lemma AgreesStep(t: Totals, before: seq<Event>, row: ShardRow, es: seq<Event>)
    requires Agrees(t, Fold(before)) && Reports(row, es)
    ensures Agrees(AddRow(t, row), Fold(before + es))
  {
    if row.partial == NO_PARTIAL {
      assert before + es == before;
    } else {
      FoldCountNonNegative(before);
      AddRowAgrees(t, Fold(before), row, es);
      FoldAppend(before, es);
    }
  }

  lemma {:induction false} SumRowsAgrees(rows: seq<ShardRow>, groups: seq<seq<Event>>)
    requires AllReport(rows, groups)
    ensures Agrees(SumRows(rows), Fold(Flatten(groups)))
  {
    if rows != [] {
      var n := |rows| - 1;
      SumRowsAgrees(rows[..n], groups[..n]);
      AgreesStep(SumRows(rows[..n]), Flatten(groups[..n]), rows[n], groups[n]);
    }
  }

  lemma MergeSnoc(g: seq<seq<int>>, b: seq<int>)
    ensures MergeOf(g + [b]) == AddBuckets(MergeOf(g), b)
  {
    assert (g + [b])[..|g|] == g;
  }

  lemma {:induction false} HistogramsMerge(rows: seq<ShardRow>, groups: seq<seq<Event>>)
    requires AllReport(rows, groups)
    ensures MergeOf(Histograms(rows)) == Fold(Flatten(groups)).buckets
  {
    if rows == [] {
      assert MergeOf([]) == NO_SAMPLES;
    } else {
      var n := |rows| - 1;
      HistogramsMerge(rows[..n], groups[..n]);
      HistogramsStep(Histograms(rows[..n]), Flatten(groups[..n]), rows[n], groups[n]);
    }
  }

  lemma HistogramsStep(g: seq<seq<int>>, before: seq<Event>, row: ShardRow, es: seq<Event>)
    requires MergeOf(g) == Fold(before).buckets && Reports(row, es)
    ensures MergeOf(if row.partial.buckets.Some? then g + [row.partial.buckets.value] else g) == Fold(before + es).buckets
  {
    if row.partial == NO_PARTIAL {
      assert before + es == before;
    } else {
      MergeSnoc(g, Fold(es).buckets);
      FoldAppend(before, es);
    }
  }

  /**
   The two-level merge refines one sequential tally: aggregating the reported
   shards gives the run exactly the numbers a single tally over all their requests
   would show, whichever order `all` lists those requests in.
   */
  lemma TwoLevelMerge(rows: seq<ShardRow>, groups: seq<seq<Event>>, all: seq<Event>)
    requires AllReport(rows, groups)
    requires multiset(all) == multiset(Flatten(groups))
    ensures ColumnsOf(rows) == ColumnsOfResult(ResultOf(Fold(all)))
  {
    FoldPermuted(all, Flatten(groups));
    SumRowsAgrees(rows, groups);
    HistogramsMerge(rows, groups);
    EmptySum(all);
  }

  /** The same, starting from the per-virtual-user requests of every shard. */
  lemma HierarchicalMerge(rows: seq<ShardRow>, shards: seq<seq<seq<Event>>>)
    requires |rows| == |shards|
    requires forall i :: 0 <= i < |rows| ==> rows[i].partial == PartialOf(ResultOf(AbsorbAll(Folds(shards[i]))))
    ensures ColumnsOf(rows) == ColumnsOfResult(ResultOf(Fold(Flatten(Flattened(shards)))))
  {
    var groups := Flattened(shards);
    forall i | 0 <= i < |rows|
      ensures Reports(rows[i], groups[i])
    {
      MergeRefinesFold(shards[i]);
    }
    TwoLevelMerge(rows, groups, Flatten(groups));
  }

  function Flattened(shards: seq<seq<seq<Event>>>): (gs: seq<seq<Event>>)
    ensures |gs| == |shards|
  {
    seq(|shards|, i requires 0 <= i < |shards| => Flatten(shards[i]))
  }

  /** At run level too the counts add up, the mean lies between the extremes and p50 <= p95 <= p99. */
  lemma RunResultPlausible(rows: seq<ShardRow>, groups: seq<seq<Event>>)
    requires AllReport(rows, groups)
    requires forall i :: 0 <= i < |groups| ==> Shaped(groups[i])
    ensures var c := ColumnsOf(rows);
      && c.success.value + c.failed.value == c.total.value
      && c.success.value <= SumRows(rows).latencyCount <= c.total.value
      && (SumRows(rows).latencyCount > 0 ==> c.minMs.value <= c.avgMs.value <= c.maxMs.value)
      && c.p50Ms.value <= c.p95Ms.value <= c.p99Ms.value
  {
    var all := Flatten(groups);
    ShapedFlatten(groups);
    FoldConsistent(all);
    ConsistentIsPlausible(Fold(all));
    TwoLevelMerge(rows, groups, all);
    SumRowsAgrees(rows, groups);
  }

  lemma {:induction false} ShapedFlatten(groups: seq<seq<Event>>)
    requires forall i :: 0 <= i < |groups| ==> Shaped(groups[i])
    ensures Shaped(Flatten(groups))
  {
    if groups != [] {
      ShapedFlatten(groups[..|groups| - 1]);
    }
  }
}
