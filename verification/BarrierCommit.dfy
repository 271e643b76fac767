/** The statements of the finishing transaction, its commit, and run creation. */
module BarrierCommit {
  import opened Wrappers
  import opened Tables
  import opened Aggregation
  import opened Handlers
  import opened Database
  import opened Lifecycle
  import opened Barrier
  import opened BarrierSteps

  // ---- Statements that only move the transaction forward ----

  /** t is s with transaction sid at a later stage, holding its run row. */
  ghost predicate Advanced(s: State, t: State, sid: nat, stage: Stage) {
    && sid in s.sessions && s.sessions[sid].Finishing? && !stage.Updated?
    && t.sessions == s.sessions[sid := s.sessions[sid].(stage := stage)]
    && t.shardLock == s.shardLock
    && t.runLock == s.runLock[s.sessions[sid].run := sid]
    && (s.sessions[sid].run in s.runLock ==> s.runLock[s.sessions[sid].run] == sid)
    && t == s.(sessions := t.sessions, runLock := t.runLock)
  }

  lemma AdvanceLocks(s: State, t: State, sid: nat, stage: Stage)
    requires LocksOk(s) && Advanced(s, t, sid, stage)
    ensures LocksOk(t)
  {
    assert Holds(s, sid, s.sessions[sid]);
    forall x | x in t.sessions && t.sessions[x].Finishing?
      ensures Holds(t, x, t.sessions[x])
    {
      assert Holds(s, x, s.sessions[x]);
    }
  }

  lemma AdvanceStep(s: State, t: State, sid: nat, stage: Stage)
    requires RowsOk(s) && Advanced(s, t, sid, stage)
    requires FinishingOk(s, s.sessions[sid].(stage := stage))
    ensures RowsOk(t) && Later(s, t)
  {
    assert SessionOk(s, sid);
    TablesUntouched(s, t, sid);
  }

  /** What the next statement reads is what StageOk says it has read. */
  lemma NextStageOk(f: Session, visible: seq<ShardRow>, row: RunRow, now: int)
    requires f.Finishing? && !AtCommit(f) && StageOk(f, visible, row)
    ensures StageOk(f.(stage := NextStage(f, visible, row, now)), visible, row)
  {
    if f.stage.Locked? {
      NoneOutstanding(visible, f.run);
    }
  }

  lemma NextStageAdvances(s: State, sid: nat, now: int)
    requires LocksOk(s) && Rooted(s) && sid in s.sessions && s.sessions[sid].Finishing? && CanExec(s, sid)
    requires !AtCommit(s.sessions[sid])
    ensures var f := s.sessions[sid];
      Advanced(s, ExecFinish(s, sid, now), sid, NextStage(f, Visible(s.shards, f), s.runs[f.run], now))
  {
    var f := s.sessions[sid];
    assert Holds(s, sid, f);
    if !f.stage.Updated? {
      assert s.runLock == s.runLock[f.run := sid];
    }
  }

  lemma ReadLocks(s: State, sid: nat, now: int)
    requires LocksOk(s) && Rooted(s) && sid in s.sessions && s.sessions[sid].Finishing? && CanExec(s, sid)
    requires !AtCommit(s.sessions[sid])
    ensures LocksOk(ExecFinish(s, sid, now))
  {
    var f := s.sessions[sid];
    NextStageAdvances(s, sid, now);
    AdvanceLocks(s, ExecFinish(s, sid, now), sid, NextStage(f, Visible(s.shards, f), s.runs[f.run], now));
  }

  lemma NextFinishingOk(s: State, f: Session, now: int)
    requires f.Finishing? && !AtCommit(f) && FinishingOk(s, f)
    ensures FinishingOk(s, f.(stage := NextStage(f, Visible(s.shards, f), s.runs[f.run], now)))
  {
    NextStageOk(f, Visible(s.shards, f), s.runs[f.run], now);
  }

  lemma ReadRows(s: State, sid: nat, now: int)
    requires LocksOk(s) && RowsOk(s) && Rooted(s)
    requires sid in s.sessions && s.sessions[sid].Finishing? && FinishingOk(s, s.sessions[sid])
    requires CanExec(s, sid) && !AtCommit(s.sessions[sid])
    ensures RowsOk(ExecFinish(s, sid, now)) && Later(s, ExecFinish(s, sid, now))
  {
    var f := s.sessions[sid];
    var stage := NextStage(f, Visible(s.shards, f), s.runs[f.run], now);
    NextFinishingOk(s, f, now);
    NextStageAdvances(s, sid, now);
    AdvanceStep(s, ExecFinish(s, sid, now), sid, stage);
  }

  // ---- Commit ----

  ghost predicate ReadyToCommit(s: State, sid: nat) {
    sid in s.sessions && AtCommit(s.sessions[sid])
  }

  lemma FinishedIsTerminal(row: ShardRow, call: Call, now: int)
    requires call.Finishes() && ShardGuard(row.status, call)
    ensures var done := FinishedRow(row, call, now);
      done.status.Terminal() && !row.status.Terminal() && ShardLater(row, done)
  {
  }

  lemma FinalIsTerminal(row: RunRow, t: Totals, p: Percentiles, c: RunStatus, now: int)
    requires c == row.status && BarrierGuard(c)
    ensures var done := FinalRow(row, t, p, c, now); done.status.Terminal() && RunLater(row, done)
  {
  }

  /** The tables after the commit. */
  lemma Committed(s: State, sid: nat)
    requires Rooted(s) && ReadyToCommit(s, sid)
    ensures var f, t := s.sessions[sid], Commit(s, sid);
      && t.shards == Visible(s.shards, f)
      && t.winner == s.winner[f.shard := sid]
      && t.runs == (if f.stage.Applied? && f.stage.write.Some? then s.runs[f.run := f.stage.write.value] else s.runs)
      && t.fired == (if f.stage.Applied? then s.fired[f.run := s.fired[f.run] + [Firing(f.stage.current, f.call)]] else s.fired)
      && t.sessions == s.sessions - {sid}
      && t.replies == s.replies[sid := Outcome(f.call, Ok)]
      && t.cap == s.cap && t.overridden == s.overridden && t.peak == s.peak && t.starter == s.starter
      && t.shardLock == Released(s, sid).shardLock && t.runLock == Released(s, sid).runLock
  {
  }

  lemma CommitRunLater(s: State, f: Session)
    requires f.Finishing? && f.stage.Applied? && f.stage.write.Some? && FinishingOk(s, f)
    ensures RunLater(s.runs[f.run], f.stage.write.value) && f.stage.write.value.status.Terminal()
  {
    var rows := RowsOf(Visible(s.shards, f), f.run);
    FinalIsTerminal(s.runs[f.run], SumRows(rows), RunPercentilesOf(rows), f.stage.current, f.stage.write.value.completedAt.value);
  }

  lemma CommitShardLater(s: State, f: Session)
    requires f.Finishing? && FinishingOk(s, f)
    ensures ShardLater(s.shards[f.shard], f.row) && f.row.status.Terminal() && !s.shards[f.shard].status.Terminal()
    ensures f.row.completedAt.Some?
  {
    FinishedIsTerminal(s.shards[f.shard], f.call, f.row.completedAt.value);
  }

  lemma CommitLater(s: State, sid: nat)
    requires Rooted(s) && ReadyToCommit(s, sid) && sid !in s.replies
    requires ShardLater(s.shards[s.sessions[sid].shard], s.sessions[sid].row)
    requires s.sessions[sid].stage.Applied? && s.sessions[sid].stage.write.Some? ==>
      RunLater(s.runs[s.sessions[sid].run], s.sessions[sid].stage.write.value)
    requires s.sessions[sid].shard !in s.winner
    ensures Later(s, Commit(s, sid))
  {
    Committed(s, sid);
  }

  lemma CommitSpares(s: State, sid: nat, x: nat)
    requires LocksOk(s) && Rooted(s) && ReadyToCommit(s, sid) && FinishingOk(s, s.sessions[sid])
    requires x in s.sessions && x != sid && s.sessions[x].Finishing?
    ensures Spares(s, Commit(s, sid), s.sessions[x])
  {
    assert Holds(s, sid, s.sessions[sid]) && Holds(s, x, s.sessions[x]);
    Committed(s, sid);
  }

  lemma CommitSparesOthers(s: State, sid: nat)
    requires LocksOk(s) && Rooted(s) && ReadyToCommit(s, sid) && FinishingOk(s, s.sessions[sid])
    ensures SparesOthers(s, Commit(s, sid), sid)
  {
    forall x | x in s.sessions && x != sid && s.sessions[x].Finishing?
      ensures Spares(s, Commit(s, sid), s.sessions[x])
    {
      CommitSpares(s, sid, x);
    }
  }

  lemma CommitSessions(s: State, sid: nat)
    requires SessionsOk(s) && Rooted(s) && ReadyToCommit(s, sid) && Later(s, Commit(s, sid))
    requires SparesOthers(s, Commit(s, sid), sid)
    ensures SessionsOk(Commit(s, sid))
  {
    Committed(s, sid);
    assert SessionOk(s, sid);
    KeepSessions(s, Commit(s, sid), sid);
  }

  /** The run of the committing call: the barrier has fired exactly if no shard is left. */
  lemma CommitOwnRun(s: State, sid: nat)
    requires Rooted(s) && ReadyToCommit(s, sid) && SessionOk(s, sid) && RunOk(s, s.sessions[sid].run)
    ensures RunOk(Commit(s, sid), s.sessions[sid].run)
  {
    var f, t := s.sessions[sid], Commit(s, sid);
    Committed(s, sid);
    CommitShardLater(s, f);
    assert !AllTerminal(s.shards, f.run);
    if f.stage.Applied? && f.stage.write.Some? {
      CommitRunLater(s, f);
    }
  }

  lemma CommitRuns(s: State, sid: nat)
    requires RunsOk(s) && Rooted(s) && ReadyToCommit(s, sid) && SessionOk(s, sid)
    ensures RunsOk(Commit(s, sid))
  {
    var f, t := s.sessions[sid], Commit(s, sid);
    Committed(s, sid);
    assert RunOk(s, f.run);
    CommitOwnRun(s, sid);
    forall r | 0 <= r < |t.runs| && r != f.run
      ensures RunKept(s, t, r)
    {
      assert f.row.runId == f.run;
    }
    KeepRuns(s, t);
  }

  lemma CommitShards(s: State, sid: nat)
    requires ShardsOk(s) && Rooted(s) && ReadyToCommit(s, sid) && SessionOk(s, sid)
    ensures ShardsOk(Commit(s, sid))
  {
    var f, t := s.sessions[sid], Commit(s, sid);
    Committed(s, sid);
    CommitShardLater(s, f);
    assert ShardOk(s, f.shard) && ShardOk(t, f.shard);
    assert forall i :: 0 <= i < |t.shards| && i != f.shard ==> ShardKept(s, t, i);
    KeepShards(s, t, sid);
  }

  lemma CommitReplies(s: State, sid: nat)
    requires RepliesOk(s) && Rooted(s) && ReadyToCommit(s, sid) && SessionOk(s, sid) && Later(s, Commit(s, sid))
    ensures RepliesOk(Commit(s, sid))
  {
    var f, t := s.sessions[sid], Commit(s, sid);
    Committed(s, sid);
    assert ReplyOk(t, sid);
    KeepReplies(s, t, sid);
  }

  lemma CommitStep(s: State, sid: nat)
    requires Inv(s) && Rooted(s) && ReadyToCommit(s, sid)
    ensures Inv(Commit(s, sid)) && Later(s, Commit(s, sid))
  {
    var f, t := s.sessions[sid], Commit(s, sid);
    assert SessionOk(s, sid) && ShardOk(s, f.shard);
    CommitShardLater(s, f);
    if f.stage.Applied? && f.stage.write.Some? {
      CommitRunLater(s, f);
    }
    CommitLater(s, sid);
    Committed(s, sid);
    ReleasedLocks(s, sid, t);
    CommitSparesOthers(s, sid);
    CommitSessions(s, sid);
    CommitRuns(s, sid);
    CommitShards(s, sid);
    CommitReplies(s, sid);
  }

  // ---- Creating a run with its shards ----

  lemma CreateLater(s: State, virtualUsers: int, parts: seq<int>)
    requires |s.fired| == |s.runs| && 0 < s.admitted && EvenSplit(parts, virtualUsers) && parts != [] && Rooted(s)
    ensures Later(s, Apply(s, Create(virtualUsers, parts)))
  {
  }

  lemma CreateStep(s: State, virtualUsers: int, parts: seq<int>)
    requires RowsOk(s) && Rooted(s) && 0 < s.admitted && EvenSplit(parts, virtualUsers) && parts != []
    ensures RowsOk(Apply(s, Create(virtualUsers, parts)))
  {
    var t := Apply(s, Create(virtualUsers, parts));
    var n := |s.runs|;
    var unused := UnusedId(s.sessions.Keys + s.replies.Keys);
    CreateLater(s, virtualUsers, parts);
    assert forall i :: 0 <= i < |s.shards| ==> ShardOk(s, i);
    assert forall r :: 0 <= r < n ==> Alike(s.shards, t.shards, r);
    KeepSessions(s, t, unused);
    assert t.shards[|s.shards|].runId == n && !t.shards[|s.shards|].status.Terminal();
    assert !AllTerminal(t.shards, n) && RunOk(t, n);
    KeepRuns(s, t);
    KeepShards(s, t, unused);
    KeepReplies(s, t, unused);
  }
}
