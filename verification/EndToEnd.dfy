/**
 From requests to the run's row: whatever the interleaving of workers and store calls,
 a run finished by the barrier shows what one tally over all reported requests shows.
 */
module EndToEnd {
  import opened Wrappers
  import opened Tables
  import opened Histogram
  import opened OrderStatistics
  import opened Stats
  import opened Aggregation
  import opened Database
  import opened Lifecycle
  import opened Barrier
  import opened BarrierCommit
  import opened Safety
  import opened Statements
  import opened Protocol
  import opened Theorems

  // ---- Only accepted reports leave numbers in a shard row ----

  ghost predicate ResultsOk(s: State) {
    forall sh :: 0 <= sh < |s.shards| && (!s.shards[sh].status.Terminal() || EndedByFail(s, sh)) ==>
      s.shards[sh].partial == NO_PARTIAL
  }

  /** Apart from commits, no step finishes a shard. */
  lemma NewlyTerminal(s: State, a: Action, sh: nat)
    requires Inv(s) && Enabled(s, a) && sh < |s.shards| && !s.shards[sh].status.Terminal()
    requires var t := Apply(s, a); Inv(t) && Later(s, t) && t.shards[sh].status.Terminal()
    ensures a.Exec? && ReadyToCommit(s, a.sid)
  {
    var t := Apply(s, a);
    assert ShardOk(s, sh) && ShardOk(t, sh);
    var w := t.winner[sh];
    assert WinnerOk(t, sh, w) && (w in s.replies ==> ReplyOk(s, w));
    if a.Exec? && !ReadyToCommit(s, a.sid) {
      assert SessionOk(s, a.sid);
      StatementQuiet(s, a.sid, a.now);
    }
  }

  lemma CommitResult(s: State, sid: nat)
    requires ResultsOk(s) && Rooted(s) && ReadyToCommit(s, sid) && FinishingOk(s, s.sessions[sid])
    ensures var f, t := s.sessions[sid], Commit(s, sid);
      && f.shard < |t.shards| && t.shards == s.shards[f.shard := f.row]
      && (EndedByFail(t, f.shard) ==> t.shards[f.shard].partial == NO_PARTIAL)
  {
    Committed(s, sid);
  }

  lemma FinishResult(s: State, a: Action, sh: nat)
    requires Inv(s) && ResultsOk(s) && Enabled(s, a) && sh < |s.shards| && !s.shards[sh].status.Terminal()
    requires var t := Apply(s, a); Inv(t) && Later(s, t) && t.shards[sh].status.Terminal() && EndedByFail(t, sh)
    ensures Apply(s, a).shards[sh].partial == NO_PARTIAL
  {
    NewlyTerminal(s, a, sh);
    assert SessionOk(s, a.sid);
    CommitResult(s, a.sid);
  }

  lemma ResultsStep(s: State, a: Action)
    requires Inv(s) && ResultsOk(s) && Enabled(s, a)
    ensures ResultsOk(Apply(s, a))
  {
    var t := Apply(s, a);
    StepInv(s, a);
    forall sh | 0 <= sh < |t.shards| && (!t.shards[sh].status.Terminal() || EndedByFail(t, sh))
      ensures t.shards[sh].partial == NO_PARTIAL
    {
      if sh < |s.shards| {
        assert ShardLater(s.shards[sh], t.shards[sh]) && ShardOk(s, sh);
        if !s.shards[sh].status.Terminal() && t.shards[sh].status.Terminal() {
          FinishResult(s, a, sh);
        }
      } else {
        NewRowsOnly(s, a);
      }
    }
  }

  /** Rows are added by Create only, and carry no result. */
  lemma NewRowsOnly(s: State, a: Action)
    requires SessionsOk(s) && Enabled(s, a)
    ensures forall sh :: |s.shards| <= sh < |Apply(s, a).shards| ==> Apply(s, a).shards[sh].partial == NO_PARTIAL
  {
    if a.Exec? {
      StatementSizes(s, a);
    }
  }

  lemma {:induction false} ResultsRun(s: State, actions: seq<Action>)
    requires Inv(s) && ResultsOk(s) && Legal(s, actions)
    ensures ResultsOk(Run(s, actions))
    decreases |actions|
  {
    if actions != [] {
      StepInv(s, actions[0]);
      ResultsStep(s, actions[0]);
      ResultsRun(Apply(s, actions[0]), actions[1..]);
    }
  }

  lemma ReachableResults(s: State)
    requires Reachable(s)
    ensures ResultsOk(s)
  {
    var cap: int, actions: seq<Action> :| Legal(Init(cap), actions) && s == Run(Init(cap), actions);
    InitInv(cap);
    ResultsRun(Init(cap), actions);
  }

  // ---- The requests behind a run ----

  /**
   The accepted report of every shard carries the result of the requests listed for it;
   a shard that was failed without numbers has none.
   */
  ghost predicate Accounts(s: State, work: seq<seq<Event>>) {
    && |work| == |s.shards|
    && forall sh :: 0 <= sh < |s.shards| ==> AccountsFor(s, sh, work[sh])
  }

  ghost predicate AccountsFor(s: State, sh: nat, es: seq<Event>) {
    if sh in s.winner && s.winner[sh] in s.replies && s.replies[s.winner[sh]].call.CompleteShard? then
      var report := s.replies[s.winner[sh]].call.report;
      report.partial == PartialOf(ResultOf(Fold(es))) || (report.partial == NO_PARTIAL && es == [])
    else es == []
  }

  /** The lists of requests of one run's shards, in the order of RowsOf. */
  function WorkOf(shards: seq<ShardRow>, work: seq<seq<Event>>, run: nat): seq<seq<Event>>
    requires |work| == |shards|
  {
    if shards == [] then []
    else
      var n := |shards| - 1;
      WorkOf(shards[..n], work[..n], run) + if shards[n].runId == run then [work[n]] else []
  }

  lemma {:induction false} RowsReport(shards: seq<ShardRow>, work: seq<seq<Event>>, run: nat)
    requires |work| == |shards|
    requires forall sh :: 0 <= sh < |shards| && shards[sh].runId == run ==> Reports(shards[sh], work[sh])
    ensures AllReport(RowsOf(shards, run), WorkOf(shards, work, run))
  {
    if shards != [] {
      var n := |shards| - 1;
      RowsReport(shards[..n], work[..n], run);
    }
  }

  lemma FinishedRowReports(s: State, sh: nat, es: seq<Event>)
    requires Inv(s) && ResultsOk(s) && sh < |s.shards| && s.shards[sh].status.Terminal() && AccountsFor(s, sh, es)
    ensures Reports(s.shards[sh], es)
  {
    assert ShardOk(s, sh) && WinnerOk(s, sh, s.winner[sh]) && ReplyOk(s, s.winner[sh]);
    if s.replies[s.winner[sh]].call.FailShard? {
      assert EndedByFail(s, sh);
    }
  }

  /** Nullable columns that all hold numbers. */
  ghost predicate AllSet(c: Columns) {
    && c.total.Some? && c.success.Some? && c.failed.Some? && c.avgMs.Some? && c.minMs.Some? && c.maxMs.Some?
    && c.p50Ms.Some? && c.p95Ms.Some? && c.p99Ms.Some?
  }

  /** The run's row shows the numbers of these requests. */
  ghost predicate ShowsTally(row: RunRow, all: seq<Event>) {
    var c, s := row.columns, Samples(all);
    && AllSet(c)
    && c.total.value == |all| && c.success.value == |set i: nat | i < |all| && all[i].success|
    && c.failed.value == c.total.value - c.success.value
    && NearestRank(c.p50Ms.value, s, 50) && NearestRank(c.p95Ms.value, s, 95) && NearestRank(c.p99Ms.value, s, 99)
    && (s == [] ==> c.avgMs.value == c.minMs.value == c.maxMs.value == 0.0)
    && (s != [] ==>
          && c.avgMs.value == SumMs(s) / |s| as real && c.minMs.value in s && c.maxMs.value in s
          && forall x :: x in s ==> c.minMs.value <= x <= c.maxMs.value)
  }

  lemma TallyShown(row: RunRow, all: seq<Event>)
    requires row.columns == ColumnsOfResult(ResultOf(Fold(all)))
    ensures ShowsTally(row, all)
  {
    ResultReflects(all);
  }

  /**
   In every reachable state and for every later one, a run finished by the barrier shows
   the tally of all requests reported for its shards, in any order; its percentiles stand for
   order statistics of their latencies.
   */
  lemma RunShowsOneTally(s: State, t: State, r: nat, work: seq<seq<Event>>, all: seq<Event>)
    requires Reachable(s) && Leads(s, t) && r < |s.runs| && r < |s.fired| && FinishedByBarrier(s, r)
    requires Accounts(s, work) && multiset(all) == multiset(Flatten(WorkOf(s.shards, work, r)))
    ensures r < |t.runs| && ShowsTally(t.runs[r], all)
  {
    ReachableInv(s);
    ReachableResults(s);
    AggregateStaysExact(s, t, r);
    assert RunOk(s, r);
    forall sh | 0 <= sh < |s.shards| && s.shards[sh].runId == r
      ensures Reports(s.shards[sh], work[sh])
    {
      FinishedRowReports(s, sh, work[sh]);
    }
    RowsReport(s.shards, work, r);
    TwoLevelMerge(RowsOf(s.shards, r), WorkOf(s.shards, work, r), all);
    TallyShown(t.runs[r], all);
  }
}
