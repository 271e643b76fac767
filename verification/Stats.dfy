/**
 One virtual user's tally of results and the merge of all tallies into a shard
 result (worker/internal/runner/stats.go). Latencies are real numbers.
 */
module Stats {
  import opened Histogram
  import opened OrderStatistics
  import opened Permutations

  /** The outcome of one request, as passed to record. */
  datatype Event = Event(latencyMs: real, success: bool, gotResponse: bool)

  /** The value of a vuStats struct. */
  datatype Tally = Tally(
    total: int, success: int, failed: int, latencyCount: int,
    sumMs: real, minMs: real, maxMs: real, buckets: seq<int>)

  datatype Result = Result(
    total: int, successful: int, failed: int, latencyCount: int,
    avgMs: real, minMs: real, maxMs: real,
    p50Ms: real, p95Ms: real, p99Ms: real, buckets: seq<int>)

  const NO_SAMPLES: seq<int> := [0, 0, 0, 0, 0, 0, 0, 0, 0, 0, 0, 0, 0]
  const EMPTY := Tally(0, 0, 0, 0, 0.0, 0.0, 0.0, NO_SAMPLES)

  // ---- Folding one request into a tally ----

  function Recorded(t: Tally, e: Event): Tally
    requires |t.buckets| == NUM_BUCKETS
  {
    var total, success := t.total + 1, t.success + (if e.success then 1 else 0);
    var failed := t.failed + (if e.success then 0 else 1);
    if !e.gotResponse then Tally(total, success, failed, t.latencyCount, t.sumMs, t.minMs, t.maxMs, t.buckets)
    else
      var b := BucketOf(e.latencyMs);
      Tally(total, success, failed, t.latencyCount + 1, t.sumMs + e.latencyMs,
            if t.latencyCount == 0 || e.latencyMs < t.minMs then e.latencyMs else t.minMs,
            if t.latencyCount == 0 || e.latencyMs > t.maxMs then e.latencyMs else t.maxMs,
            t.buckets[b := t.buckets[b] + 1])
  }

  /** The tally after a list of requests, oldest first. */
  function Fold(es: seq<Event>): (t: Tally)
    ensures |t.buckets| == NUM_BUCKETS
  {
    if es == [] then EMPTY else Recorded(Fold(es[..|es| - 1]), es[|es| - 1])
  }

  class VuStats {
    var total: int
    var success: int
    var failed: int
    var latencyCount: int
    var sumLatencyMs: real
    var minLatencyMs: real
    var maxLatencyMs: real
    const buckets: array<int>

    ghost predicate Valid() { buckets.Length == NUM_BUCKETS }

    ghost function View(): Tally
      reads this, buckets
    {
      Tally(total, success, failed, latencyCount, sumLatencyMs, minLatencyMs, maxLatencyMs, buckets[..])
    }

    constructor ()
      ensures Valid() && fresh(buckets)
      ensures View() == EMPTY
    {
      total, success, failed, latencyCount := 0, 0, 0, 0;
      sumLatencyMs, minLatencyMs, maxLatencyMs := 0.0, 0.0, 0.0;
      buckets := new int[NUM_BUCKETS](_ => 0);
    }

    method Record(latencyMs: real, success: bool, gotResponse: bool)
      requires Valid()
      modifies this, buckets
      ensures View() == Recorded(old(View()), Event(latencyMs, success, gotResponse))
    {
      total := total + 1;
      if success {
        this.success := this.success + 1;
      } else {
        failed := failed + 1;
      }
      if gotResponse {
        sumLatencyMs := sumLatencyMs + latencyMs;
        var b := BucketIndex(latencyMs);
        buckets[b] := buckets[b] + 1;
        if latencyCount == 0 || latencyMs < minLatencyMs {
          minLatencyMs := latencyMs;
        }
        if latencyCount == 0 || latencyMs > maxLatencyMs {
          maxLatencyMs := latencyMs;
        }
        latencyCount := latencyCount + 1;
      }
    }
  }

  // ---- Merging tallies ----

  function AddBuckets(a: seq<int>, b: seq<int>): (c: seq<int>)
    ensures |c| == NUM_BUCKETS
  {
    seq(NUM_BUCKETS, i requires 0 <= i => Entry(a, i) + Entry(b, i))
  }

  function Absorb(t: Tally, u: Tally): (r: Tally)
    ensures |r.buckets| == NUM_BUCKETS
  {
    Tally(t.total + u.total, t.success + u.success, t.failed + u.failed,
          t.latencyCount + u.latencyCount, t.sumMs + u.sumMs,
          if u.latencyCount > 0 && (t.latencyCount == 0 || u.minMs < t.minMs) then u.minMs else t.minMs,
          if u.latencyCount > 0 && (t.latencyCount == 0 || u.maxMs > t.maxMs) then u.maxMs else t.maxMs,
          AddBuckets(t.buckets, u.buckets))
  }

  function AbsorbAll(ts: seq<Tally>): (r: Tally)
    ensures |r.buckets| == NUM_BUCKETS
  {
    if ts == [] then EMPTY else Absorb(AbsorbAll(ts[..|ts| - 1]), ts[|ts| - 1])
  }

  lemma AbsorbAllStep(ts: seq<Tally>, k: nat)
    requires k < |ts|
    ensures AbsorbAll(ts[..k + 1]) == Absorb(AbsorbAll(ts[..k]), ts[k])
  {
    assert ts[..k + 1][..k] == ts[..k];
  }

  function ResultOf(t: Tally): Result {
    Result(t.total, t.success, t.failed, t.latencyCount,
           if t.latencyCount > 0 then t.sumMs / t.latencyCount as real else 0.0,
           t.minMs, t.maxMs,
           PercentileOf(t.buckets, P50), PercentileOf(t.buckets, P95), PercentileOf(t.buckets, P99),
           t.buckets)
  }

  ghost function Views(all: seq<VuStats>): (ts: seq<Tally>)
    requires forall s :: s in all ==> s.Valid()
    reads all, set i | 0 <= i < |all| :: all[i].buckets
    ensures |ts| == |all| && forall i :: 0 <= i < |all| ==> ts[i] == all[i].View()
  {
    if all == [] then []
    else
      var last := all[|all| - 1];
      assert last in all && last.Valid();
      Views(all[..|all| - 1]) + [last.View()]
  }

  method AddInto(merged: array<int>, buckets: array<int>)
    requires merged != buckets && merged.Length == buckets.Length == NUM_BUCKETS
    modifies merged
    ensures merged[..] == AddBuckets(old(merged[..]), buckets[..])
  {
    for i := 0 to NUM_BUCKETS
      invariant forall j :: 0 <= j < i ==> merged[j] == old(merged[j]) + buckets[j]
      invariant forall j :: i <= j < NUM_BUCKETS ==> merged[j] == old(merged[j])
    {
      merged[i] := merged[i] + buckets[i];
    }
  }

  /** The loop of mergeStats: adds up every virtual user's slot. */
  method Accumulate(all: seq<VuStats>) returns (t: Tally)
    requires forall s :: s in all ==> s.Valid()
    ensures |t.buckets| == NUM_BUCKETS
    ensures t == AbsorbAll(old(Views(all)))
  {
    ghost var views := Views(all);
    var total, successful, failed, latencyCount := 0, 0, 0, 0;
    var sumLatency, minMs, maxMs := 0.0, 0.0, 0.0;
    var merged := new int[NUM_BUCKETS](_ => 0);
    ghost var acc := EMPTY;
    for k := 0 to |all|
      invariant fresh(merged)
      invariant |acc.buckets| == NUM_BUCKETS && merged[..] == acc.buckets
      invariant total == acc.total && successful == acc.success && failed == acc.failed
      invariant latencyCount == acc.latencyCount && sumLatency == acc.sumMs
      invariant minMs == acc.minMs && maxMs == acc.maxMs
      invariant acc == AbsorbAll(views[..k])
    {
      var vu := all[k];
      AbsorbAllStep(views, k);
      acc := Absorb(acc, views[k]);
      assert vu in all && vu.View() == views[k];
      AddInto(merged, vu.buckets);
      total := total + vu.total;
      successful := successful + vu.success;
      failed := failed + vu.failed;
      sumLatency := sumLatency + vu.sumLatencyMs;
      if vu.latencyCount > 0 {
        if latencyCount == 0 || vu.minLatencyMs < minMs {
          minMs := vu.minLatencyMs;
        }
        if latencyCount == 0 || vu.maxLatencyMs > maxMs {
          maxMs := vu.maxLatencyMs;
        }
      }
      latencyCount := latencyCount + vu.latencyCount;
    }
    assert views[..|all|] == views;
    t := Tally(total, successful, failed, latencyCount, sumLatency, minMs, maxMs, merged[..]);
  }

  method MergeStats(all: seq<VuStats>) returns (r: Result)
    requires forall s :: s in all ==> s.Valid()
    ensures r == ResultOf(AbsorbAll(old(Views(all))))
  {
    var t := Accumulate(all);
    var avg := 0.0;
    if t.latencyCount > 0 {
      avg := t.sumMs / t.latencyCount as real;
    }
    var p50 := Percentile(t.buckets, P50);
    var p95 := Percentile(t.buckets, P95);
    var p99 := Percentile(t.buckets, P99);
    r := Result(t.total, t.success, t.failed, t.latencyCount, avg, t.minMs, t.maxMs, p50, p95, p99, t.buckets);
  }

  // ---- Merging refines one sequential tally ----

  lemma {:induction false} FoldCountNonNegative(es: seq<Event>)
    ensures 0 <= Fold(es).latencyCount
  {
    if es != [] {
      FoldCountNonNegative(es[..|es| - 1]);
    }
  }

  lemma AbsorbEmpty(t: Tally)
    requires |t.buckets| == NUM_BUCKETS
    ensures Absorb(t, EMPTY) == t
  {
    assert AddBuckets(t.buckets, EMPTY.buckets) == t.buckets;
  }

  lemma AbsorbRecord(t: Tally, u: Tally, e: Event)
    requires |t.buckets| == |u.buckets| == NUM_BUCKETS
    requires 0 <= t.latencyCount && 0 <= u.latencyCount
    ensures Absorb(t, Recorded(u, e)) == Recorded(Absorb(t, u), e)
  {
    assert AddBuckets(t.buckets, Recorded(u, e).buckets) == Recorded(Absorb(t, u), e).buckets;
  }

  /** Tallying two lists apart and merging equals tallying them one after the other. */
  lemma {:induction false} FoldAppend(a: seq<Event>, b: seq<Event>)
    ensures Fold(a + b) == Absorb(Fold(a), Fold(b))
  {
    if b == [] {
      assert a + b == a;
      AbsorbEmpty(Fold(a));
    } else {
      var init := b[..|b| - 1];
      FoldAppend(a, init);
      assert (a + b)[..|a + b| - 1] == a + init;
      FoldCountNonNegative(a);
      FoldCountNonNegative(init);
      AbsorbRecord(Fold(a), Fold(init), b[|b| - 1]);
    }
  }

  lemma AbsorbCommutes(a: seq<Event>, b: seq<Event>)
    ensures Absorb(Fold(a), Fold(b)) == Absorb(Fold(b), Fold(a))
  {
    FoldDescribes(a);
    FoldDescribes(b);
    assert AddBuckets(Fold(a).buckets, Fold(b).buckets) == AddBuckets(Fold(b).buckets, Fold(a).buckets);
  }

  lemma FoldSwap(a: seq<Event>, b: seq<Event>)
    ensures Fold(a + b) == Fold(b + a)
  {
    FoldAppend(a, b);
    FoldAppend(b, a);
    AbsorbCommutes(a, b);
  }

  lemma FoldMoveToEnd(pre: seq<Event>, x: Event, post: seq<Event>)
    ensures Fold(pre + [x] + post) == Fold(pre + post + [x])
  {
    FoldSwap([x], post);
    FoldAppend(pre, [x] + post);
    FoldAppend(pre, post + [x]);
    assert pre + [x] + post == pre + ([x] + post);
    assert pre + post + [x] == pre + (post + [x]);
  }

  /** The order in which requests are recorded does not change the tally. */
  lemma {:induction false} FoldPermuted(a: seq<Event>, b: seq<Event>)
    requires multiset(a) == multiset(b)
    ensures Fold(a) == Fold(b)
    decreases |a|
  {
    PermutationLength(a, b);
    if a != [] {
      var n := |a| - 1;
      var k := MatchLast(a, b);
      var pre, post := b[..k], b[k + 1..];
      FoldPermuted(a[..n], pre + post);
      assert b == pre + [b[k]] + post;
      FoldMoveToEnd(pre, b[k], post);
      assert (pre + post + [b[k]])[..n] == pre + post;
    }
  }

  function Folds(groups: seq<seq<Event>>): (ts: seq<Tally>)
    ensures |ts| == |groups|
    ensures forall i :: 0 <= i < |groups| ==> ts[i] == Fold(groups[i])
  {
    seq(|groups|, i requires 0 <= i < |groups| => Fold(groups[i]))
  }

  lemma {:induction false} MergeRefinesFold(groups: seq<seq<Event>>)
    ensures AbsorbAll(Folds(groups)) == Fold(Flatten(groups))
  {
    if groups != [] {
      var init, last := groups[..|groups| - 1], groups[|groups| - 1];
      MergeRefinesFold(init);
      assert Folds(groups)[..|init|] == Folds(init);
      FoldAppend(Flatten(init), last);
    }
  }

  // ---- What a tally says about its requests ----

  function Samples(es: seq<Event>): seq<real> {
    if es == [] then []
    else
      var e := es[|es| - 1];
      if e.gotResponse then Samples(es[..|es| - 1]) + [e.latencyMs] else Samples(es[..|es| - 1])
  }

  function SumMs(s: seq<real>): real {
    if s == [] then 0.0 else SumMs(s[..|s| - 1]) + s[|s| - 1]
  }

  const SUCCEEDED: Event -> bool := (e: Event) => e.success

  /** A description of a tally that does not mention how it is computed. */
  ghost predicate Describes(t: Tally, es: seq<Event>) {
    && t.total == |es|
    && t.success == Count(es, SUCCEEDED)
    && t.failed == |es| - t.success
    && DescribesSamples(t, Samples(es))
  }

  ghost predicate DescribesSamples(t: Tally, s: seq<real>) {
    && t.latencyCount == |s|
    && t.sumMs == SumMs(s)
    && t.buckets == HistOf(s)
    && (s == [] ==> t.minMs == t.maxMs == 0.0)
    && (s != [] ==> t.minMs in s && t.maxMs in s)
    && (forall x :: x in s ==> t.minMs <= x <= t.maxMs)
  }

  lemma HistSnoc(s: seq<real>, x: real)
    ensures HistOf(s + [x]) == HistOf(s)[BucketOf(x) := HistOf(s)[BucketOf(x)] + 1]
  {
    assert (s + [x])[..|s|] == s;
  }

  lemma DescribesSnoc(t: Tally, s: seq<real>, e: Event)
    requires |t.buckets| == NUM_BUCKETS && e.gotResponse
    requires DescribesSamples(t, s)
    ensures DescribesSamples(Recorded(t, e), s + [e.latencyMs])
  {
    HistSnoc(s, e.latencyMs);
    assert (s + [e.latencyMs])[..|s|] == s;
  }

  lemma {:induction false} FoldDescribes(es: seq<Event>)
    ensures Describes(Fold(es), es)
  {
    if es == [] {
      assert HistOf([]) == NO_SAMPLES;
    } else {
      var init, e := es[..|es| - 1], es[|es| - 1];
      FoldDescribes(init);
      if e.gotResponse {
        DescribesSnoc(Fold(init), Samples(init), e);
      }
    }
  }

  /** The description pins the tally down completely. */
  lemma DescriptionUnique(t: Tally, u: Tally, es: seq<Event>)
    requires Describes(t, es) && Describes(u, es)
    ensures t == u
  {
    var s := Samples(es);
    if s != [] {
      assert t.minMs in s && u.minMs in s && t.maxMs in s && u.maxMs in s;
    }
  }

  /** The three ways doRequest calls record: a success always carries a response. */
  ghost predicate Shaped(es: seq<Event>) {
    forall i :: 0 <= i < |es| ==>
      (es[i].success ==> es[i].gotResponse) && (!es[i].gotResponse ==> es[i].latencyMs == 0.0)
  }

  ghost predicate Consistent(t: Tally) {
    && 0 <= t.success && 0 <= t.failed
    && t.success + t.failed == t.total
    && t.success <= t.latencyCount <= t.total
    && |t.buckets| == NUM_BUCKETS && NonNegative(t.buckets)
    && Sum(t.buckets) == t.latencyCount
    && MeanBetween(t.minMs, t.sumMs, t.maxMs, t.latencyCount)
  }

  /** lo <= sum / n <= hi, said without division. */
  ghost predicate MeanBetween(lo: real, sum: real, hi: real, n: int) {
    lo * n as real <= sum <= hi * n as real
  }

  lemma {:induction false} SumBetween(s: seq<real>, lo: real, hi: real)
    requires forall x :: x in s ==> lo <= x <= hi
    ensures MeanBetween(lo, SumMs(s), hi, |s|)
  {
    if s != [] {
      var init, n := s[..|s| - 1], |s| - 1;
      assert forall x :: x in init ==> x in s;
      SumBetween(init, lo, hi);
      assert s[n] in s;
      assert lo * (n + 1) as real == lo * n as real + lo;
      assert hi * (n + 1) as real == hi * n as real + hi;
    }
  }

  lemma {:induction false} SuccessesRespond(es: seq<Event>)
    requires Shaped(es)
    ensures Count(es, SUCCEEDED) <= |Samples(es)| <= |es|
  {
    if es != [] {
      SuccessesRespond(es[..|es| - 1]);
    }
  }

  /** Measurement invariants hold after any sequence of requests. */
  lemma FoldConsistent(es: seq<Event>)
    requires Shaped(es)
    ensures Consistent(Fold(es))
  {
    FoldDescribes(es);
    var s, t := Samples(es), Fold(es);
    SumBetween(s, t.minMs, t.maxMs);
    SuccessesRespond(es);
    HistTotal(s);
  }

  /** Relations between the reported numbers, as the clients of a result see them. */
  ghost predicate Plausible(r: Result) {
    && r.successful + r.failed == r.total
    && r.successful <= r.latencyCount <= r.total
    && Sum(r.buckets) == r.latencyCount
    && (r.latencyCount > 0 ==> r.minMs <= r.avgMs <= r.maxMs)
    && r.p50Ms <= r.p95Ms <= r.p99Ms
  }

  lemma DivBetween(lo: real, hi: real, sum: real, n: int)
    requires 0 < n && MeanBetween(lo, sum, hi, n)
    ensures lo <= sum / n as real <= hi
  {
    var d := n as real;
    var a := sum / d;
    assert a * d == sum;
    if a < lo {
      MulStrict(a, lo, d);
    }
    if hi < a {
      MulStrict(hi, a, d);
    }
  }

  lemma MulStrict(a: real, b: real, d: real)
    requires a < b && 0.0 < d
    ensures a * d < b * d
  {
  }

  lemma ConsistentIsPlausible(t: Tally)
    requires Consistent(t)
    ensures Plausible(ResultOf(t))
  {
    PercentilesOrdered(t.buckets);
    if t.latencyCount > 0 {
      DivBetween(t.minMs, t.maxMs, t.sumMs, t.latencyCount);
    }
  }

  // ---- What a result says about its requests ----

  /** The numbers of a result, said of the requests themselves. */
  ghost predicate Reflects(r: Result, es: seq<Event>) {
    var s := Samples(es);
    && r.total == |es| && r.successful == |set i: nat | i < |es| && es[i].success|
    && r.failed == r.total - r.successful && r.latencyCount == |s|
    && r.buckets == HistOf(s)
    && NearestRank(r.p50Ms, s, 50) && NearestRank(r.p95Ms, s, 95) && NearestRank(r.p99Ms, s, 99)
    && (s == [] ==> r.avgMs == r.minMs == r.maxMs == 0.0)
    && (s != [] ==>
          && r.avgMs == SumMs(s) / |s| as real && r.minMs in s && r.maxMs in s
          && forall x :: x in s ==> r.minMs <= x <= r.maxMs)
  }

  lemma SuccessesCounted(es: seq<Event>)
    ensures Count(es, SUCCEEDED) == |set i: nat | i < |es| && es[i].success|
  {
    CountIsCardinality(es, SUCCEEDED);
    assert Positions(es, SUCCEEDED) == set i: nat | i < |es| && es[i].success;
  }

  /** The result of a tally reflects the requests it has seen. */
  lemma ResultReflects(es: seq<Event>)
    ensures Reflects(ResultOf(Fold(es)), es)
  {
    FoldDescribes(es);
    SuccessesCounted(es);
    ReportedPercentiles(Samples(es));
  }
}
