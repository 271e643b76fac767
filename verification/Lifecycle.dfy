/**
 What one statement may do to the rows: statuses only move forward, terminal
 rows never change, and a cancelling run can only become cancelled.
 */
module Lifecycle {
  import opened Tables
  import opened Aggregation
  import opened Database

  // ---- Shard rows of one run ----

  ghost predicate AllTerminal(shards: seq<ShardRow>, run: nat) {
    forall i :: 0 <= i < |shards| && shards[i].runId == run ==> shards[i].status.Terminal()
  }

  lemma {:induction false} NoneOutstanding(shards: seq<ShardRow>, run: nat)
    ensures Outstanding(shards, run) == 0 <==> AllTerminal(shards, run)
  {
    if shards != [] {
      var n := |shards| - 1;
      NoneOutstanding(shards[..n], run);
      if AllTerminal(shards[..n], run) && !(shards[n].runId == run && !shards[n].status.Terminal()) {
        forall i | 0 <= i < |shards| && shards[i].runId == run
          ensures shards[i].status.Terminal()
        {
          if i < n {
            assert shards[..n][i] == shards[i];
          }
        }
      }
      if AllTerminal(shards, run) {
        assert forall i :: 0 <= i < n ==> shards[..n][i] == shards[i];
      }
    }
  }

  ghost function OutstandingShards(shards: seq<ShardRow>, run: nat): set<nat> {
    set i: nat | i < |shards| && shards[i].runId == run && !shards[i].status.Terminal()
  }

  /** The count query counts each outstanding shard of the run once. */
  lemma {:induction false} OutstandingCardinality(shards: seq<ShardRow>, run: nat)
    ensures Outstanding(shards, run) == |OutstandingShards(shards, run)|
  {
    if shards == [] {
      assert OutstandingShards(shards, run) == {};
    } else {
      var n := |shards| - 1;
      OutstandingCardinality(shards[..n], run);
      assert forall i: nat :: i < n ==> shards[..n][i] == shards[i];
      assert OutstandingShards(shards, run) - {n} == OutstandingShards(shards[..n], run);
    }
  }

  /** The capacity check counts each run that is not terminal once, cancelling ones included. */
  lemma {:induction false} ActiveCardinality(runs: seq<RunRow>)
    ensures CountActive(runs) == |set r: nat | r < |runs| && !runs[r].status.Terminal()|
  {
    var all := set r: nat | r < |runs| && !runs[r].status.Terminal();
    if runs != [] {
      var n := |runs| - 1;
      ActiveCardinality(runs[..n]);
      var init := set r: nat | r < n && !runs[..n][r].status.Terminal();
      assert all == if runs[n].status.Terminal() then init else init + {n};
    }
  }

  /** The failed shards of a run. */
  ghost function FailedShards(shards: seq<ShardRow>, run: nat): set<nat> {
    set i: nat | i < |shards| && shards[i].runId == run && shards[i].status == ShardFailed
  }

  lemma {:induction false} FailedCounted(shards: seq<ShardRow>, run: nat)
    ensures SumRows(RowsOf(shards, run)).failedShards == |FailedShards(shards, run)|
  {
    if shards == [] {
      assert FailedShards(shards, run) == {};
    } else {
      var n := |shards| - 1;
      FailedCounted(shards[..n], run);
      assert forall i: nat :: i < n ==> shards[..n][i] == shards[i];
      assert FailedShards(shards, run) - {n} == FailedShards(shards[..n], run);
    }
  }

  /** b extends a without touching what a finished run reads of its shards. */
  ghost predicate Alike(a: seq<ShardRow>, b: seq<ShardRow>, run: nat) {
    && |a| <= |b|
    && (forall i :: 0 <= i < |a| ==> b[i].runId == a[i].runId)
    && (forall i :: 0 <= i < |a| && a[i].runId == run ==>
          a[i].status.Terminal() == b[i].status.Terminal() && (a[i].status.Terminal() ==> a[i] == b[i]))
    && (forall i :: |a| <= i < |b| ==> b[i].runId != run)
  }

  lemma {:induction false} SameRows(a: seq<ShardRow>, b: seq<ShardRow>, run: nat)
    requires |a| <= |b|
    requires forall i :: 0 <= i < |a| ==> b[i].runId == a[i].runId
    requires forall i :: 0 <= i < |a| && a[i].runId == run ==> a[i] == b[i]
    requires forall i :: |a| <= i < |b| ==> b[i].runId != run
    ensures RowsOf(a, run) == RowsOf(b, run)
    decreases |b|
  {
    if b != [] {
      var n := |b| - 1;
      if |a| == |b| {
        SameRows(a[..n], b[..n], run);
      } else {
        SameRows(a, b[..n], run);
      }
    }
  }

  lemma AlikeRows(a: seq<ShardRow>, b: seq<ShardRow>, run: nat)
    requires Alike(a, b, run)
    ensures AllTerminal(a, run) <==> AllTerminal(b, run)
    ensures AllTerminal(a, run) ==> RowsOf(a, run) == RowsOf(b, run)
  {
    if AllTerminal(a, run) {
      assert forall i :: 0 <= i < |a| && a[i].runId == run ==> a[i] == b[i];
      SameRows(a, b, run);
    }
  }

  // ---- Progress of rows ----

  ghost predicate ShardLater(a: ShardRow, b: ShardRow) {
    && b.runId == a.runId && b.index == a.index && b.virtualUsers == a.virtualUsers
    && a.status.Rank() <= b.status.Rank()
    && (a.status.Terminal() ==> a == b)
    && (!b.status.Terminal() ==> b.partial == a.partial)
  }

  ghost predicate RunLater(a: RunRow, b: RunRow) {
    && b.virtualUsers == a.virtualUsers && b.shardCount == a.shardCount
    && a.status.Rank() <= b.status.Rank()
    && (a.status.Terminal() ==> a == b)
    && (a.status.Cancelling? ==> b.status.Cancelling? || b.status.Cancelled?)
  }

  /** t can come after s: rows only make progress and the history only grows. */
  ghost predicate Later(s: State, t: State) {
    && t.cap == s.cap
    && |s.runs| <= |t.runs| && |s.shards| <= |t.shards| && |s.fired| <= |t.fired|
    && (forall r :: 0 <= r < |s.runs| ==> RunLater(s.runs[r], t.runs[r]))
    && (forall i :: 0 <= i < |s.shards| ==> ShardLater(s.shards[i], t.shards[i]))
    && (forall r :: 0 <= r < |s.fired| ==> s.fired[r] <= t.fired[r])
    && (forall sid :: sid in s.replies ==> sid in t.replies && t.replies[sid] == s.replies[sid])
    && (forall sh :: sh in s.winner ==> sh in t.winner && t.winner[sh] == s.winner[sh])
    && s.overridden <= t.overridden
    && s.peak <= t.peak
  }

  lemma LaterRefl(s: State)
    ensures Later(s, s)
  {
  }

  lemma LaterTrans(s: State, t: State, u: State)
    requires Later(s, t) && Later(t, u)
    ensures Later(s, u)
  {
    forall r | 0 <= r < |s.runs|
      ensures RunLater(s.runs[r], u.runs[r])
    {
      assert RunLater(s.runs[r], t.runs[r]) && RunLater(t.runs[r], u.runs[r]);
    }
    forall i | 0 <= i < |s.shards|
      ensures ShardLater(s.shards[i], u.shards[i])
    {
      assert ShardLater(s.shards[i], t.shards[i]) && ShardLater(t.shards[i], u.shards[i]);
    }
    forall r | 0 <= r < |s.fired|
      ensures s.fired[r] <= u.fired[r]
    {
      assert s.fired[r] <= t.fired[r] && t.fired[r] <= u.fired[r];
    }
  }
}
