/**
 What the store's callers are promised of each statement that can change a row, said
 without the model's own guards and row updates, and proved of the state machine for
 every interleaving: the statement a call is about to execute always has this effect.
 */
module Effects {
  import opened Wrappers
  import opened Tables
  import opened Aggregation
  import opened Database
  import opened Lifecycle

  // ---- Shard calls ----

  /** Which answer a report or a dead-letter gets; Ok when its row was there to finish. */
  ghost predicate FinishAnswer(shards: seq<ShardRow>, call: Call, reply: Reply)
    requires call.Finishes()
  {
    if |shards| <= call.shard then reply == NotFound
    else
      match shards[call.shard].status
      case ShardRunning => reply == Ok
      case ShardQueued => reply == if call.FailShard? then Ok else NotRunning
      case _ => reply == if call.FailShard? then NoOp else NotRunning
  }

  /** A start needs a queued shard; a take-over takes a running one as well. */
  ghost predicate StartAnswer(shards: seq<ShardRow>, call: Call, reply: Reply)
    requires call.Starts()
  {
    if |shards| <= call.shard then reply == NotFound
    else
      match shards[call.shard].status
      case ShardQueued => reply == Ok
      case ShardRunning => reply == if call.TakeOverShard? then Ok else NotQueued
      case _ => reply == if call.TakeOverShard? then AlreadyDone else NotQueued
  }

  /** The finished row: the report's status, numbers and message, or failed with the reason. */
  ghost predicate Finished(before: ShardRow, after: ShardRow, call: Call, now: int)
    requires call.Finishes()
  {
    match call
    case CompleteShard(_, Report(completed, error, partial)) =>
      after == before.(status := if completed then ShardCompleted else ShardFailed, partial := partial,
                       error := if error.Some? then Some(Text(error.value)) else None, completedAt := Some(now))
    case FailShard(_, reason) =>
      after == before.(status := ShardFailed, error := Some(Text(reason)), completedAt := Some(now))
  }

  /** The transaction of a report or dead-letter has opened: its row is locked and waits to be committed. */
  ghost predicate Opened(s: State, t: State, sid: nat, call: Call, now: int)
    requires call.Finishes() && call.shard < |s.shards|
  {
    && sid in t.sessions && t.sessions[sid].Finishing? && t.replies == s.replies
    && t.sessions == s.sessions[sid := t.sessions[sid]]
    && t.shardLock == s.shardLock[call.shard := sid]
    && var f := t.sessions[sid];
      && f.call == call && f.shard == call.shard && f.run == s.shards[call.shard].runId && f.stage == Updated
      && Finished(s.shards[call.shard], f.row, call, now)
  }

  /** The call has been answered and is no longer in flight. */
  ghost predicate Returned(s: State, t: State, sid: nat, call: Call) {
    && sid in t.replies && t.replies[sid].call == call
    && t.replies == s.replies[sid := t.replies[sid]] && t.sessions == s.sessions - {sid}
  }

  /** What the first statement of a report or dead-letter does. */
  ghost predicate FinishEffect(s: State, t: State, sid: nat, call: Call, now: int)
    requires call.Finishes()
  {
    && t.shards == s.shards && t.runs == s.runs && t.runLock == s.runLock && t.fired == s.fired
    && (FinishAnswer(s.shards, call, Ok) ==> Opened(s, t, sid, call, now))
    && (!FinishAnswer(s.shards, call, Ok) ==>
          Returned(s, t, sid, call) && FinishAnswer(s.shards, call, t.replies[sid].reply) && t.shardLock == s.shardLock)
  }

  /** What the first statement of a start or take-over does. */
  ghost predicate StartEffect(s: State, t: State, sid: nat, call: Call, now: int)
    requires call.Starts()
  {
    && t.runs == s.runs && t.runLock == s.runLock && t.shardLock == s.shardLock && t.fired == s.fired
    && (StartAnswer(s.shards, call, Ok) ==>
          && t.shards == s.shards[call.shard := s.shards[call.shard].(status := ShardRunning, startedAt := Some(now))]
          && t.sessions == s.sessions[sid := Marking(call, call.shard, s.shards[call.shard].runId)]
          && t.replies == s.replies)
    && (!StartAnswer(s.shards, call, Ok) ==>
          t.shards == s.shards && Returned(s, t, sid, call) && StartAnswer(s.shards, call, t.replies[sid].reply))
  }

  lemma FinishCall(s: State, sid: nat, now: int)
    requires sid in s.sessions && s.sessions[sid].call.Finishes()
    ensures FinishEffect(s, ExecShardCall(s, sid, now), sid, s.sessions[sid].call, now)
  {
  }

  lemma StartCall(s: State, sid: nat, now: int)
    requires sid in s.sessions && s.sessions[sid].call.Starts()
    ensures StartEffect(s, ExecShardCall(s, sid, now), sid, s.sessions[sid].call, now)
  {
  }

  /**
   On an unlocked row the first statement of a report or dead-letter can always execute; it opens
   its transaction when the shard is running, or queued and being dead-lettered, and says why otherwise.
   */
  lemma FinishStatement(s: State, sid: nat, now: int)
    requires Rooted(s) && sid in s.sessions && s.sessions[sid].Waiting? && s.sessions[sid].call.Finishes()
    requires s.sessions[sid].call.shard !in s.shardLock
    ensures Enabled(s, Exec(sid, now)) && FinishEffect(s, Apply(s, Exec(sid, now)), sid, s.sessions[sid].call, now)
  {
    FinishCall(s, sid, now);
  }

  /** On an unlocked row the first statement of a start or take-over can always execute. */
  lemma StartStatement(s: State, sid: nat, now: int)
    requires Rooted(s) && sid in s.sessions && s.sessions[sid].Waiting? && s.sessions[sid].call.Starts()
    requires s.sessions[sid].call.shard !in s.shardLock
    ensures Enabled(s, Exec(sid, now)) && StartEffect(s, Apply(s, Exec(sid, now)), sid, s.sessions[sid].call, now)
  {
    StartCall(s, sid, now);
  }

  /** The second statement of a start: a queued run becomes running, any other is left alone. */
  ghost predicate Marked(before: seq<RunRow>, r: nat, now: int, after: seq<RunRow>)
    requires r < |before|
  {
    after == if before[r].status == Queued then before[r := before[r].(status := Running, startedAt := Some(now))] else before
  }

  lemma MarkStatement(s: State, sid: nat, now: int)
    requires Rooted(s) && sid in s.sessions && s.sessions[sid].Marking? && s.sessions[sid].run !in s.runLock
    ensures Enabled(s, Exec(sid, now))
    ensures var f, t := s.sessions[sid], Apply(s, Exec(sid, now));
      && Marked(s.runs, f.run, now, t.runs) && t.shards == s.shards
      && Returned(s, t, sid, f.call) && t.replies[sid].reply == Ok
  {
  }

  /** Any call in flight may be cut off: what it had not committed is undone, and its locks are released. */
  lemma AbortStatement(s: State, sid: nat)
    requires Rooted(s)
    ensures Enabled(s, Abort(sid)) <==> sid in s.sessions
    ensures sid in s.sessions ==>
      var f, t := s.sessions[sid], Apply(s, Abort(sid));
      && t.runs == s.runs && t.shards == s.shards && Returned(s, t, sid, f.call) && t.replies[sid].reply == DbError
      && (f.Finishing? ==> f.shard !in t.shardLock && (f.run in t.runLock ==> t.runLock[f.run] != sid))
  {
  }

  // ---- Run-level methods ----

  /** Run r is replaced by the given row and the call succeeds. */
  ghost predicate Rewrites(before: seq<RunRow>, r: nat, row: RunRow, after: seq<RunRow>, reply: Reply) {
    r < |before| && after == before[r := row] && reply == Ok
  }

  /** What a run-level method does to the runs and how it answers. */
  ghost predicate RunEffect(before: seq<RunRow>, locked: set<nat>, call: Call, now: int, after: seq<RunRow>, reply: Reply)
    requires !call.OnShard()
  {
    if call.ClaimNext? then
      || (exists r: nat :: r < |before| && before[r].status == Queued && r !in locked
            && (forall j: nat :: j < r ==> before[j].status != Queued || j in locked)
            && Rewrites(before, r, before[r].(status := Running, startedAt := Some(now)), after, reply))
      || ((forall j: nat :: j < |before| ==> before[j].status != Queued || j in locked) && after == before && reply == QueueEmpty)
    else if |before| <= call.run then after == before && reply == NotFound
    else OneRunEffect(before, before[call.run], call, now, after, reply)
  }

  ghost predicate OneRunEffect(before: seq<RunRow>, row: RunRow, call: Call, now: int, after: seq<RunRow>, reply: Reply)
    requires !call.OnShard() && !call.ClaimNext?
  {
    var queued, running := row.status == Queued, row.status == Running;
    match call
    case StartByID(r) =>
      if queued then Rewrites(before, r, row.(status := Running, startedAt := Some(now)), after, reply)
      else after == before && reply == NotQueued
    case TakeOver(r) =>
      if queued || running then Rewrites(before, r, row.(status := Running, startedAt := Some(now)), after, reply)
      else after == before && reply == AlreadyDone
    case FailRun(r, reason) =>
      if queued || running then
        Rewrites(before, r, row.(status := Failed, error := Some(Text(reason)), completedAt := Some(now)), after, reply)
      else after == before && reply == NoOp
    case CompleteRun(r, Report(completed, error, p)) =>
      if running then
        Rewrites(before, r,
          row.(status := if completed then Completed else Failed,
               error := if error.Some? then Some(Text(error.value)) else None,
               columns := Columns(p.total, p.success, p.failed, p.avgMs, p.minMs, p.maxMs,
                                  row.columns.p50Ms, row.columns.p95Ms, row.columns.p99Ms),
               completedAt := Some(now)), after, reply)
      else after == before && reply == NotRunning
    case CancelRun(r) =>
      if queued || running then Rewrites(before, r, row.(status := Cancelling), after, reply)
      else after == before && reply == NoOp
  }

  lemma ClaimEffect(s: State, sid: nat, now: int)
    requires sid in s.sessions && s.sessions[sid].call.ClaimNext?
    ensures sid in ExecRunCall(s, sid, now).replies
    ensures var t := ExecRunCall(s, sid, now);
      RunEffect(s.runs, s.runLock.Keys, ClaimNext, now, t.runs, t.replies[sid].reply)
  {
    var r := OldestQueued(s.runs, s.runLock, 0);
    assert forall j: nat :: j < r ==> s.runs[j].status != Queued || j in s.runLock.Keys;
    if r < |s.runs| {
      assert Rewrites(s.runs, r, s.runs[r].(status := Running, startedAt := Some(now)), ExecRunCall(s, sid, now).runs, Ok);
    }
  }

  lemma OneRunRow(before: seq<RunRow>, call: Call, now: int)
    requires !call.OnShard() && !call.ClaimNext? && call.run < |before|
    ensures var row := before[call.run];
      if RunGuard(row.status, call) then OneRunEffect(before, row, call, now, before[call.run := UpdatedRun(row, call, now)], Ok)
      else OneRunEffect(before, row, call, now, before, RunMiss(call))
  {
  }

  lemma OneRunCall(s: State, sid: nat, now: int)
    requires sid in s.sessions && !s.sessions[sid].call.OnShard() && !s.sessions[sid].call.ClaimNext?
    ensures sid in ExecRunCall(s, sid, now).replies
    ensures var t := ExecRunCall(s, sid, now);
      RunEffect(s.runs, s.runLock.Keys, s.sessions[sid].call, now, t.runs, t.replies[sid].reply)
  {
    if s.sessions[sid].call.run < |s.runs| {
      OneRunRow(s.runs, s.sessions[sid].call, now);
    }
  }

  /** The only statement of a run-level method on an unlocked row. */
  lemma RunStatement(s: State, sid: nat, now: int)
    requires Rooted(s) && sid in s.sessions && s.sessions[sid].Waiting? && !s.sessions[sid].call.OnShard()
    requires s.sessions[sid].call.ClaimNext? || s.sessions[sid].call.run !in s.runLock
    ensures Enabled(s, Exec(sid, now))
    ensures var call, t := s.sessions[sid].call, Apply(s, Exec(sid, now));
      && t.shards == s.shards && Returned(s, t, sid, call)
      && RunEffect(s.runs, s.runLock.Keys, call, now, t.runs, t.replies[sid].reply)
  {
    if s.sessions[sid].call.ClaimNext? {
      ClaimEffect(s, sid, now);
    } else {
      OneRunCall(s, sid, now);
    }
  }

  // ---- The barrier's write ----

  /**
   The row of a run that has been aggregated: cancelled if it was being cancelled, else failed
   with the number of failed shards, or completed; with the aggregate of its shards' numbers.
   */
  ghost predicate Aggregated(before: RunRow, after: RunRow, shards: seq<ShardRow>, r: nat, now: int) {
    var failed := FailedShards(shards, r);
    after == before.(
      status := if before.status == Cancelling then Cancelled else if failed == {} then Completed else Failed,
      error := if before.status == Cancelling then Some(CancelledByUser)
               else if failed == {} then None else Some(ShardsFailed(|failed|)),
      columns := ColumnsOf(RowsOf(shards, r)), completedAt := Some(now))
  }

  lemma FinalRowAggregates(row: RunRow, shards: seq<ShardRow>, r: nat, now: int)
    ensures var rows := RowsOf(shards, r);
      Aggregated(row, FinalRow(row, SumRows(rows), RunPercentilesOf(rows), row.status, now), shards, r, now)
  {
    FailedCounted(shards, r);
  }

  /** The runs after the barrier check of run r: aggregated if all its shards are finished and it is live. */
  ghost predicate BarrierEffect(before: seq<RunRow>, after: seq<RunRow>, shards: seq<ShardRow>, r: nat, now: int)
    requires r < |before|
  {
    if AllTerminal(shards, r) && (before[r].status == Running || before[r].status == Cancelling) then
      |after| == |before| && after == before[r := after[r]] && Aggregated(before[r], after[r], shards, r, now)
    else after == before
  }
}
