/** What holds in every reachable state of the store, under every interleaving. */
module Theorems {
  import opened Wrappers
  import opened Tables
  import opened Histogram
  import opened Aggregation
  import opened Database
  import opened Lifecycle
  import opened Barrier
  import opened Safety

  ghost predicate Reachable(s: State) {
    exists cap: int, actions: seq<Action> :: Legal(Init(cap), actions) && s == Run(Init(cap), actions)
  }

  /** t is reached from s by some further actions. */
  ghost predicate Leads(s: State, t: State) {
    exists actions: seq<Action> :: Legal(s, actions) && t == Run(s, actions)
  }

  lemma ReachableInv(s: State)
    requires Reachable(s)
    ensures Inv(s)
  {
    var cap: int, actions: seq<Action> :| Legal(Init(cap), actions) && s == Run(Init(cap), actions);
    InitInv(cap);
    RunInv(Init(cap), actions);
  }

  lemma LeadsInv(s: State, t: State)
    requires Inv(s) && Leads(s, t)
    ensures Inv(t) && Later(s, t)
  {
    var actions: seq<Action> :| Legal(s, actions) && t == Run(s, actions);
    RunInv(s, actions);
  }

  lemma ReachableStep(s: State, a: Action)
    requires Reachable(s) && Enabled(s, a)
    ensures Reachable(Apply(s, a))
  {
    var cap: int, actions: seq<Action> :| Legal(Init(cap), actions) && s == Run(Init(cap), actions);
    var t := Apply(s, a);
    assert Legal(s, [a]) && Run(s, [a]) == t by {
      assert [a][1..] == [];
      assert Legal(t, []) && Run(t, []) == t;
    }
    RunAppend(Init(cap), actions, [a]);
  }

  lemma LeadsReachable(s: State, t: State)
    requires Reachable(s) && Leads(s, t)
    ensures Reachable(t)
  {
    var cap: int, a: seq<Action> :| Legal(Init(cap), a) && s == Run(Init(cap), a);
    var b: seq<Action> :| Legal(s, b) && t == Run(s, b);
    RunAppend(Init(cap), a, b);
  }

  // ---- The completion barrier ----

  /** The barrier has fired while it read the run as still queued. */
  ghost predicate FiredWhileQueued(s: State, r: nat)
    requires r < |s.fired|
  {
    s.fired[r] != [] && s.fired[r][0].seen.Queued?
  }

  ghost predicate Hung(s: State, r: nat)
    requires r < |s.runs|
  {
    AllTerminal(s.shards, r) && !s.runs[r].status.Terminal()
  }

  /**
   Barrier correctness: whatever the interleaving, a run that was not finished by
   a run-level Complete or Fail, and whose barrier did not fire while it was queued,
   is terminal exactly when all its shards are; the barrier has then fired exactly
   once and the run's columns are the aggregate of its shard rows.
   */
  lemma BarrierCorrect(s: State, r: nat)
    requires Reachable(s) && r < |s.runs| && r !in s.overridden
    requires r < |s.fired| ==> !FiredWhileQueued(s, r)
    ensures |s.fired| == |s.runs|
    ensures s.runs[r].status.Terminal() <==> AllTerminal(s.shards, r)
    ensures |s.fired[r]| == if s.runs[r].status.Terminal() then 1 else 0
    ensures s.runs[r].status.Terminal() ==> Finalised(s.runs[r], RowsOf(s.shards, r), s.fired[r][0].seen)
  {
    ReachableInv(s);
    assert RunOk(s, r);
  }

  /** A run hangs with all its shards finished if and only if its barrier fired while it was queued. */
  lemma HungExactly(s: State, r: nat)
    requires Reachable(s) && r < |s.runs| && r !in s.overridden
    ensures |s.fired| == |s.runs|
    ensures Hung(s, r) <==> FiredWhileQueued(s, r)
  {
    ReachableInv(s);
    assert RunOk(s, r);
  }

  /** Nothing but a run-level Complete or Fail ever frees a hung run: no start, take-over or cancel does. */
  lemma HungForever(s: State, t: State, r: nat)
    requires Reachable(s) && Leads(s, t) && r < |s.runs| && r !in s.overridden && Hung(s, r)
    ensures r < |t.runs| && (r !in t.overridden ==> Hung(t, r))
  {
    ReachableInv(s);
    LeadsInv(s, t);
    LeadsReachable(s, t);
    HungExactly(s, r);
    assert RunOk(s, r) && s.fired[r] <= t.fired[r];
    if r !in t.overridden {
      HungExactly(t, r);
    }
  }

  // ---- The aggregate never goes stale ----

  ghost predicate FinishedByBarrier(s: State, r: nat)
    requires r < |s.runs| && r < |s.fired|
  {
    s.fired[r] != [] && BarrierGuard(s.fired[r][0].seen)
  }

  /** Once the barrier has finished a run, its row is final and equals the sum over its shard rows in every later state. */
  lemma AggregateStaysExact(s: State, t: State, r: nat)
    requires Reachable(s) && Leads(s, t) && r < |s.runs| && r < |s.fired| && FinishedByBarrier(s, r)
    ensures s.runs[r].status.Terminal()
    ensures r < |t.runs| && t.runs[r] == s.runs[r]
    ensures t.runs[r].columns == ColumnsOf(RowsOf(t.shards, r))
  {
    ReachableInv(s);
    LeadsInv(s, t);
    assert RunOk(s, r) && RunOk(t, r) && RunLater(s.runs[r], t.runs[r]) && s.fired[r] <= t.fired[r];
  }

  // ---- One contribution per shard ----

  /** A finished shard row, and the call that finished it, never change. */
  lemma ShardFinal(s: State, t: State, sh: nat)
    requires Reachable(s) && Leads(s, t) && sh < |s.shards| && s.shards[sh].status.Terminal()
    ensures sh < |t.shards| && t.shards[sh] == s.shards[sh]
    ensures sh in s.winner && sh in t.winner && t.winner[sh] == s.winner[sh]
  {
    ReachableInv(s);
    LeadsInv(s, t);
    assert ShardOk(s, sh) && ShardLater(s.shards[sh], t.shards[sh]);
  }

  /** The shard row shows what this report or failure said. */
  ghost predicate Shows(row: ShardRow, call: Call)
    requires call.Finishes()
  {
    match call
    case CompleteShard(_, Report(completed, error, partial)) =>
      && row.status == (if completed then ShardCompleted else ShardFailed) && row.partial == partial
      && row.error == if error.Some? then Some(Text(error.value)) else None
    case FailShard(_, reason) => row.status == ShardFailed && row.error == Some(Text(reason))
  }

  /**
   However many workers report or fail a shard, one call is accepted, and the row shows what
   it said in every later state.
   */
  lemma OneAcceptedReport(s: State, t: State, a: nat, b: nat)
    requires Reachable(s) && Leads(s, t)
    requires a in s.replies && s.replies[a].call.Finishes() && s.replies[a].reply.Ok?
    requires b in t.replies && t.replies[b].call.Finishes() && t.replies[b].reply.Ok?
    requires t.replies[b].call.shard == s.replies[a].call.shard
    ensures a == b
    ensures var call := s.replies[a].call; call.shard < |t.shards| && Shows(t.shards[call.shard], call)
  {
    ReachableInv(s);
    LeadsInv(s, t);
    assert ReplyOk(t, a) && ReplyOk(t, b);
  }

  /** Answers stay true: what ReplyOk reads from an answer holds in every later state. */
  lemma AnswersHold(s: State, t: State, sid: nat)
    requires Reachable(s) && Leads(s, t) && sid in s.replies
    ensures sid in t.replies && t.replies[sid] == s.replies[sid] && ReplyOk(t, sid)
  {
    ReachableInv(s);
    LeadsInv(s, t);
  }

  // ---- Cancellation ----

  /**
   Once a run is cancelling no sequence of store calls completes or fails it; if it
   ever becomes terminal it is cancelled, with the sum of its shards' partial results.
   */
  lemma CancellationFinal(s: State, t: State, r: nat)
    requires Reachable(s) && Leads(s, t) && r < |s.runs| && s.runs[r].status.Cancelling?
    ensures r < |t.runs| && (t.runs[r].status.Cancelling? || t.runs[r].status.Cancelled?)
    ensures t.runs[r].status.Cancelled? ==>
      t.runs[r].columns == ColumnsOf(RowsOf(t.shards, r)) && t.runs[r].error == Some(CancelledByUser)
  {
    ReachableInv(s);
    LeadsInv(s, t);
    LeadsReachable(s, t);
    CancelledIsFinalised(s, t, r);
  }

  lemma CancelledIsFinalised(s: State, t: State, r: nat)
    requires Inv(s) && Reachable(t) && Later(s, t) && r < |s.runs| && s.runs[r].status.Cancelling?
    ensures t.runs[r].status.Cancelling? || t.runs[r].status.Cancelled?
    ensures t.runs[r].status.Cancelled? ==>
      t.runs[r].columns == ColumnsOf(RowsOf(t.shards, r)) && t.runs[r].error == Some(CancelledByUser)
  {
    assert RunLater(s.runs[r], t.runs[r]);
    if t.runs[r].status.Cancelled? {
      CancelledMeansBarrier(t, r);
    }
  }

  /** Only the barrier ever writes 'cancelled'. */
  lemma CancelledMeansBarrier(t: State, r: nat)
    requires Reachable(t) && r < |t.runs| && t.runs[r].status.Cancelled?
    ensures r < |t.fired| && t.fired[r] != [] && t.fired[r][0].seen.Cancelling?
    ensures Finalised(t.runs[r], RowsOf(t.shards, r), Cancelling)
  {
    ReachableInv(t);
    assert RunOk(t, r);
  }

  /**
   A run finished by the barrier is cancelled if it was being cancelled, else completed iff no
   shard failed, and otherwise failed with the number of failed shards.
   */
  lemma BarrierVerdict(s: State, r: nat)
    requires Reachable(s) && r < |s.runs| && r < |s.fired| && FinishedByBarrier(s, r)
    ensures s.runs[r].status.Terminal()
    ensures s.runs[r].status.Cancelled? <==> s.fired[r][0].seen.Cancelling?
    ensures s.fired[r][0].seen.Running? ==>
      var failed := FailedShards(s.shards, r);
      && (s.runs[r].status.Completed? <==> failed == {})
      && (s.runs[r].status.Failed? <==> failed != {})
      && s.runs[r].error == if failed == {} then None else Some(ShardsFailed(|failed|))
  {
    ReachableInv(s);
    assert RunOk(s, r);
    FailedCounted(s.shards, r);
  }

  // ---- Monotone lifecycle ----

  /**
   Over all methods, run-level ones included: ranks never decrease, terminal rows are
   immutable, and completed_at is set exactly in terminal rows.
   */
  lemma MonotoneLifecycle(s: State, t: State)
    requires Reachable(s) && Leads(s, t)
    ensures |s.runs| <= |t.runs| && |s.shards| <= |t.shards|
    ensures forall r :: 0 <= r < |s.runs| ==>
      s.runs[r].status.Rank() <= t.runs[r].status.Rank() && (s.runs[r].status.Terminal() ==> t.runs[r] == s.runs[r])
    ensures forall i :: 0 <= i < |s.shards| ==>
      s.shards[i].status.Rank() <= t.shards[i].status.Rank() && (s.shards[i].status.Terminal() ==> t.shards[i] == s.shards[i])
    ensures forall r :: 0 <= r < |s.runs| ==> (s.runs[r].completedAt.Some? <==> s.runs[r].status.Terminal())
    ensures forall i :: 0 <= i < |s.shards| ==> (s.shards[i].completedAt.Some? <==> s.shards[i].status.Terminal())
  {
    ReachableInv(s);
    LeadsInv(s, t);
    forall r | 0 <= r < |s.runs|
      ensures RunOk(s, r) && RunLater(s.runs[r], t.runs[r])
    {
    }
    forall i | 0 <= i < |s.shards|
      ensures ShardOk(s, i) && ShardLater(s.shards[i], t.shards[i])
    {
    }
  }
}
