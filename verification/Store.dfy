/**
 TestRunStore as an object with mutable tables: one method per SQL statement, and
 the store methods that issue them. Each statement is proved to be the state machine's
 step, so every theorem about reachable states is a theorem about this object.
 */
module Store {
  import opened Wrappers
  import opened Tables
  import opened Aggregation
  import opened Database
  import opened Lifecycle
  import opened Barrier
  import opened Safety
  import opened Effects

  class TestRunStore {
    const cap: int
    var runs: seq<RunRow>
    var shards: seq<ShardRow>
    var sessions: map<nat, Session>
    var shardLock: map<nat, nat>
    var runLock: map<nat, nat>
    var replies: map<nat, Outcome>
    var fired: seq<seq<Firing>>
    var winner: map<nat, nat>
    var starter: map<nat, nat>
    var overridden: set<nat>
    var admitted: nat
    var peak: nat

    function View(): State
      reads this
    {
      State(cap, runs, shards, sessions, shardLock, runLock, replies, fired, winner, starter, overridden, admitted, peak)
    }

    constructor (cap: int)
      ensures View() == Init(cap) && Inv(View())
    {
      this.cap := cap;
      runs, shards, sessions, shardLock, runLock, replies := [], [], map[], map[], map[], map[];
      fired, winner, starter, overridden, admitted, peak := [], map[], map[], {}, 0, 0;
    }

    // ---- Statements ----

    /** A call arrives; nothing of it has been executed. */
    method Begin(sid: nat, call: Call)
      requires Enabled(View(), Open(sid, call))
      modifies this`sessions
      ensures View() == Apply(old(View()), Open(sid, call))
    {
      sessions := sessions[sid := Waiting(call)];
    }

    /** The call returns. */
    method Respond(sid: nat, reply: Reply)
      requires sid in sessions
      modifies this`sessions, this`replies
      ensures View() == Answer(old(View()), sid, reply)
    {
      replies := replies[sid := Outcome(sessions[sid].call, reply)];
      sessions := sessions - {sid};
    }

    /** The guarded UPDATE that starts, takes over, completes or fails a shard. */
    method UpdateShard(sid: nat, now: int)
      requires sid in sessions && sessions[sid].call.OnShard() && CanExec(View(), sid)
      modifies this
      ensures View() == ExecShardCall(old(View()), sid, now)
      ensures var call := old(sessions[sid].call);
        && (call.Finishes() ==> FinishEffect(old(View()), View(), sid, call, now))
        && (call.Starts() ==> StartEffect(old(View()), View(), sid, call, now))
    {
      var call := sessions[sid].call;
      if call.Finishes() {
        FinishCall(View(), sid, now);
      } else {
        StartCall(View(), sid, now);
      }
      var sh := call.shard;
      if |shards| <= sh {
        Respond(sid, NotFound);
      } else if !ShardGuard(shards[sh].status, call) {
        Respond(sid, ShardMiss(call));
      } else if call.Starts() {
        var row := shards[sh];
        shards := shards[sh := row.(status := ShardRunning, startedAt := Some(now))];
        sessions := sessions[sid := Marking(call, sh, row.runId)];
        starter := starter[sh := sid];
      } else {
        var row := shards[sh];
        sessions := sessions[sid := Finishing(call, sh, row.runId, FinishedRow(row, call, now), Updated)];
        shardLock := shardLock[sh := sid];
      }
    }

    /** startShard's second UPDATE: the first shard to start flips the run to running. */
    method MarkRun(sid: nat, now: int)
      requires sid in sessions && sessions[sid].Marking? && sessions[sid].run < |runs|
      modifies this`runs, this`sessions, this`replies
      ensures View() == ExecMark(old(View()), sid, now)
      ensures Marked(old(runs), old(sessions[sid].run), now, runs)
      ensures sessions == old(sessions) - {sid} && replies == old(replies)[sid := Outcome(old(sessions[sid].call), Ok)]
    {
      var r := sessions[sid].run;
      if runs[r].status.Queued? {
        runs := runs[r := Started(runs[r], now)];
      }
      Respond(sid, Ok);
    }

    /** A run-level method: one guarded UPDATE. */
    method UpdateRun(sid: nat, now: int)
      requires sid in sessions && !sessions[sid].call.OnShard()
      modifies this`runs, this`sessions, this`replies, this`overridden
      ensures View() == ExecRunCall(old(View()), sid, now)
      ensures sid in replies && replies == old(replies)[sid := replies[sid]] && sessions == old(sessions) - {sid}
      ensures RunEffect(old(runs), runLock.Keys, old(sessions[sid].call), now, runs, replies[sid].reply)
    {
      var call := sessions[sid].call;
      if call.ClaimNext? {
        ClaimEffect(View(), sid, now);
      } else {
        OneRunCall(View(), sid, now);
      }
      if call.ClaimNext? {
        var r := OldestQueued(runs, runLock, 0);
        if r == |runs| {
          Respond(sid, QueueEmpty);
        } else {
          runs := runs[r := Started(runs[r], now)];
          Respond(sid, Ok);
        }
      } else if |runs| <= call.run {
        Respond(sid, NotFound);
      } else if !RunGuard(runs[call.run].status, call) {
        Respond(sid, RunMiss(call));
      } else {
        runs := runs[call.run := UpdatedRun(runs[call.run], call, now)];
        if call.FailRun? || call.CompleteRun? {
          overridden := overridden + {call.run};
        }
        Respond(sid, Ok);
      }
    }

    /** The transaction goes on to its next statement. */
    method SetStage(sid: nat, stage: Stage)
      requires sid in sessions && sessions[sid].Finishing?
      modifies this`sessions
      ensures View() == AtStage(old(View()), sid, stage)
    {
      sessions := sessions[sid := sessions[sid].(stage := stage)];
    }

    /**
     A statement of finishShard or aggregateRun after the first, short of the commit:
     lock the run row, count, sum, merge the histograms, read the status, write the run.
     */
    method NextStatement(sid: nat, now: int)
      requires sid in sessions && sessions[sid].Finishing? && !AtCommit(sessions[sid])
      requires sessions[sid].shard < |shards| && sessions[sid].run < |runs|
      modifies this`sessions, this`runLock
      ensures var f := old(sessions[sid]);
        && sessions == old(sessions)[sid := f.(stage := NextStage(f, Visible(shards, f), runs[f.run], now))]
        && runLock == (if f.stage.Updated? || (f.stage.Seen? && BarrierGuard(runs[f.run].status))
                       then old(runLock)[f.run := sid] else old(runLock))
      ensures old(sessions[sid].stage) == Locked ==>
        sid in sessions && sessions[sid].Finishing? && sessions[sid].stage == Counted(
          |OutstandingShards(shards[sessions[sid].shard := sessions[sid].row], sessions[sid].run)|)
    {
      var f := sessions[sid];
      var visible := Visible(shards, f);
      match f.stage
      case Updated =>
        runLock := runLock[f.run := sid];
        SetStage(sid, Locked);
      case Locked =>
        SetStage(sid, Counted(Outstanding(visible, f.run)));
        OutstandingCardinality(visible, f.run);
      case Counted(_) =>
        SetStage(sid, Summed(SumRows(RowsOf(visible, f.run))));
      case Summed(t) =>
        var p := RunPercentiles(RowsOf(visible, f.run));
        SetStage(sid, Merged(t, p));
      case Merged(t, p) =>
        SetStage(sid, Seen(t, p, runs[f.run].status));
      case Seen(t, p, c) =>
        if BarrierGuard(runs[f.run].status) {
          runLock := runLock[f.run := sid];
          SetStage(sid, Applied(c, Some(FinalRow(runs[f.run], t, p, c, now))));
        } else {
          SetStage(sid, Applied(c, None));
        }
      case Applied(_, _) =>
        assert false;
    }

    /** A transaction ends: its row locks are released. */
    method Release(sid: nat)
      requires sid in sessions
      modifies this`shardLock, this`runLock
      ensures View() == Released(old(View()), sid)
    {
      var f := sessions[sid];
      if f.Finishing? {
        shardLock := shardLock - {f.shard};
        if f.run in runLock && runLock[f.run] == sid {
          runLock := runLock - {f.run};
        }
      }
    }

    /** COMMIT of a finishing transaction. */
    method CommitTx(sid: nat)
      requires Rooted(View()) && sid in sessions && sessions[sid].Finishing?
      modifies this
      ensures View() == Commit(old(View()), sid)
      ensures var f := old(sessions[sid]);
        && shards == old(shards)[f.shard := f.row]
        && runs == (if f.stage.Applied? && f.stage.write.Some? then old(runs)[f.run := f.stage.write.value] else old(runs))
        && sessions == old(sessions) - {sid} && replies == old(replies)[sid := Outcome(f.call, Ok)]
        && f.shard !in shardLock && (f.run in runLock ==> runLock[f.run] != sid)
    {
      var f := sessions[sid];
      Release(sid);
      shards := shards[f.shard := f.row];
      winner := winner[f.shard := sid];
      if f.stage.Applied? {
        if f.stage.write.Some? {
          runs := runs[f.run := f.stage.write.value];
        }
        fired := fired[f.run := fired[f.run] + [Firing(f.stage.current, f.call)]];
      }
      Respond(sid, Ok);
    }

    /** The next statement of any call in flight. */
    method Execute(sid: nat, now: int)
      requires Rooted(View()) && sid in sessions && CanExec(View(), sid)
      requires sessions[sid].Marking? ==> sessions[sid].run < |runs|
      modifies this
      ensures View() == ExecStatement(old(View()), sid, now)
    {
      match sessions[sid]
      case Waiting(call) =>
        if call.OnShard() {
          UpdateShard(sid, now);
        } else {
          UpdateRun(sid, now);
        }
      case Marking(_, _, _) =>
        MarkRun(sid, now);
      case Finishing(_, _, _, _, _) =>
        if AtCommit(sessions[sid]) {
          CommitTx(sid);
        } else {
          NextStatement(sid, now);
        }
    }

    // ---- Store methods, run without interruption ----

    /**
     aggregateRun inside the finishing transaction that holds the run's row lock: the row to be
     written is the run's aggregate if it is running or cancelling; else nothing is written.
     */
    method AggregateRun(sid: nat, now: int)
      requires sid in sessions && sessions[sid].Finishing? && sessions[sid].stage == Counted(0)
      requires sessions[sid].shard < |shards| && sessions[sid].run < |runs|
      requires sessions[sid].run in runLock && runLock[sessions[sid].run] == sid
      modifies this`sessions, this`runLock
      ensures runLock == old(runLock) && sid in sessions && sessions[sid].Finishing? && sessions[sid].stage.Applied?
      ensures sessions == old(sessions)[sid := old(sessions[sid]).(stage := sessions[sid].stage)]
      ensures sessions[sid].stage.current == runs[sessions[sid].run].status
      ensures var row, write := runs[sessions[sid].run], sessions[sid].stage.write;
        && (write.Some? <==> row.status == Running || row.status == Cancelling)
        && (write.Some? ==> Aggregated(row, write.value, shards[sessions[sid].shard := sessions[sid].row], sessions[sid].run, now))
    {
      ghost var f, rows := sessions[sid], RowsOf(Visible(shards, sessions[sid]), sessions[sid].run);
      NextStatement(sid, now);
      assert sessions == old(sessions)[sid := f.(stage := Summed(SumRows(rows)))] && runLock == old(runLock);
      NextStatement(sid, now);
      assert sessions == old(sessions)[sid := f.(stage := Merged(SumRows(rows), RunPercentilesOf(rows)))];
      assert runLock == old(runLock);
      NextStatement(sid, now);
      assert sessions == old(sessions)[sid := f.(stage := Seen(SumRows(rows), RunPercentilesOf(rows), runs[f.run].status))];
      assert runLock == old(runLock);
      NextStatement(sid, now);
      FinalRowAggregates(runs[f.run], Visible(shards, f), f.run, now);
    }

    /** The barrier check: nothing more if shards are outstanding, else the aggregation. */
    method CheckBarrier(sid: nat, now: int)
      requires sid in sessions && sessions[sid].Finishing? && sessions[sid].stage == Updated
      requires sessions[sid].shard < |shards| && sessions[sid].run < |runs|
      modifies this`sessions, this`runLock
      ensures sid in sessions && sessions[sid].Finishing?
      ensures runLock == old(runLock)[sessions[sid].run := sid]
      ensures sessions == old(sessions)[sid := old(sessions[sid]).(stage := sessions[sid].stage)]
      ensures BarrierStage(sessions[sid], shards[sessions[sid].shard := sessions[sid].row], runs[sessions[sid].run], now)
    {
      ghost var f := sessions[sid];
      NextStatement(sid, now);
      NextStatement(sid, now);
      assert sessions == old(sessions)[sid := f.(stage := Counted(Outstanding(Visible(shards, f), f.run)))];
      NoneOutstanding(Visible(shards, f), f.run);
      if sessions[sid].stage.remaining == 0 {
        AggregateRun(sid, now);
      }
    }

    /** The rest of finishShard once its UPDATE has matched a row. */
    method FinishMatched(sid: nat, now: int)
      requires Rooted(View()) && sid in sessions && sessions[sid].Finishing? && sessions[sid].stage == Updated
      modifies this
      ensures |fired| == |runs| && sessions == old(sessions) - {sid}
      ensures replies == old(replies)[sid := Outcome(old(sessions[sid].call), Ok)]
      ensures shardLock == old(shardLock) - {old(sessions[sid].shard)}
      ensures runLock == old(runLock) - {old(sessions[sid].run)}
      ensures shards == old(shards)[old(sessions[sid].shard) := old(sessions[sid].row)]
      ensures BarrierEffect(old(runs), runs, shards, old(sessions[sid].run), now)
    {
      CheckBarrier(sid, now);
      CommitTx(sid);
    }

    /** No transaction is open. */
    ghost predicate Idle()
      reads this
    {
      Rooted(View()) && shardLock == map[] && runLock == map[] && forall i :: 0 <= i < |shards| ==> shards[i].runId < |runs|
    }

    /** A report or dead-letter arrives while no transaction is open, and its UPDATE is executed. */
    method OpenFinish(sid: nat, call: Call, now: int)
      requires Idle() && call.Finishes() && sid !in sessions && sid !in replies
      modifies this
      ensures Rooted(View()) && shards == old(shards) && runs == old(runs) && runLock == map[]
      ensures sid in sessions <==> FinishAnswer(shards, call, Ok)
      ensures sid in sessions ==>
        && replies == old(replies) && shardLock == map[call.shard := sid]
        && sessions == old(sessions)[sid := sessions[sid]] && sessions[sid].Finishing?
        && var f := sessions[sid];
          && f.call == call && f.shard == call.shard && f.run == shards[call.shard].runId && f.stage == Updated
          && Finished(shards[call.shard], f.row, call, now)
      ensures sid !in sessions ==>
        && sid in replies && FinishAnswer(shards, call, replies[sid].reply) && replies[sid].call == call
        && replies == old(replies)[sid := replies[sid]] && sessions == old(sessions) && shardLock == map[]
    {
      Begin(sid, call);
      UpdateShard(sid, now);
      assert sessions - {sid} == old(sessions);
    }

    /**
     finishShard, which serves CompleteShard and FailShard: a running shard, or a queued one that
     is failed, gets its finished row; and if that leaves no shard of the run outstanding the run
     is aggregated as well, unless it is neither running nor cancelling.
     */
    method FinishShard(sid: nat, call: Call, now: int) returns (reply: Reply)
      requires Idle() && call.Finishes() && sid !in sessions && sid !in replies
      modifies this
      ensures Idle() && sessions == old(sessions) && replies == old(replies)[sid := Outcome(call, reply)]
      ensures reply == Ok <==>
        (call.shard < |old(shards)| && (old(shards)[call.shard].status.ShardRunning?
                                        || (call.FailShard? && old(shards)[call.shard].status.ShardQueued?)))
      ensures reply == NotFound <==> |old(shards)| <= call.shard
      ensures reply == NotRunning <==>
        call.CompleteShard? && call.shard < |old(shards)| && !old(shards)[call.shard].status.ShardRunning?
      ensures reply == NoOp <==>
        (call.FailShard? && call.shard < |old(shards)| && (old(shards)[call.shard].status.ShardCompleted?
                                                           || old(shards)[call.shard].status.ShardFailed?))
      ensures reply != Ok ==> shards == old(shards) && runs == old(runs)
      ensures reply == Ok ==>
        && |shards| == |old(shards)| && shards == old(shards)[call.shard := shards[call.shard]]
        && Finished(old(shards)[call.shard], shards[call.shard], call, now)
        && BarrierEffect(old(runs), runs, shards, old(shards)[call.shard].runId, now)
    {
      OpenFinish(sid, call, now);
      if sid in sessions {
        FinishMatched(sid, now);
      }
      reply := replies[sid].reply;
    }

    /** A start or take-over arrives while no transaction is open, and its first UPDATE is executed. */
    method OpenClaim(sid: nat, call: Call, now: int)
      requires Idle() && call.Starts() && sid !in sessions && sid !in replies
      modifies this
      ensures runs == old(runs) && fired == old(fired) && runLock == map[] && shardLock == map[]
      ensures sid in sessions <==> StartAnswer(old(shards), call, Ok)
      ensures sid in sessions ==>
        && replies == old(replies)
        && shards == old(shards)[call.shard := old(shards)[call.shard].(status := ShardRunning, startedAt := Some(now))]
        && sessions == old(sessions)[sid := Marking(call, call.shard, old(shards)[call.shard].runId)]
      ensures sid !in sessions ==>
        && sid in replies && StartAnswer(shards, call, replies[sid].reply) && replies[sid].call == call
        && replies == old(replies)[sid := replies[sid]] && sessions == old(sessions) && shards == old(shards)
    {
      Begin(sid, call);
      UpdateShard(sid, now);
      assert sessions - {sid} == old(sessions);
    }

    /** startShard, which serves StartShard and TakeOverShard. */
    method ClaimShard(sid: nat, call: Call, now: int) returns (reply: Reply)
      requires Idle() && call.Starts() && sid !in sessions && sid !in replies
      modifies this
      ensures Idle() && sessions == old(sessions) && replies == old(replies)[sid := Outcome(call, reply)]
      ensures reply == Ok <==>
        (call.shard < |old(shards)| && (old(shards)[call.shard].status.ShardQueued?
                                        || (call.TakeOverShard? && old(shards)[call.shard].status.ShardRunning?)))
      ensures reply == NotFound <==> |old(shards)| <= call.shard
      ensures reply == NotQueued <==>
        call.StartShard? && call.shard < |old(shards)| && !old(shards)[call.shard].status.ShardQueued?
      ensures reply == AlreadyDone <==>
        (call.TakeOverShard? && call.shard < |old(shards)| && (old(shards)[call.shard].status.ShardCompleted?
                                                               || old(shards)[call.shard].status.ShardFailed?))
      ensures reply != Ok ==> shards == old(shards) && runs == old(runs)
      ensures reply == Ok ==>
        && shards == old(shards)[call.shard := old(shards)[call.shard].(status := ShardRunning, startedAt := Some(now))]
        && Marked(old(runs), old(shards)[call.shard].runId, now, runs)
    {
      OpenClaim(sid, call, now);
      if sid in sessions {
        MarkRun(sid, now);
      }
      reply := replies[sid].reply;
    }

    // ---- Admission and creation ----

    /** CreateTestRun's capacity check. */
    method Admit() returns (admit: bool)
      requires Rooted(View())
      modifies this`admitted, this`peak
      ensures admit <==> cap <= 0 || |set r: nat | r < |runs| && !runs[r].status.Terminal()| < cap
      ensures admit <==> Enabled(old(View()), Database.Admit)
      ensures admit ==> View() == Apply(old(View()), Database.Admit)
      ensures !admit ==> View() == old(View())
    {
      ActiveCardinality(runs);
      if cap > 0 && CountActive(runs) >= cap {
        return false;
      }
      admitted := admitted + 1;
      if peak < admitted {
        peak := admitted;
      }
      return true;
    }

    /** CreateWithShards: the run and one row per part, in one transaction; shard ids come back in order. */
    method CreateWithShards(virtualUsers: int, parts: seq<int>) returns (run: nat, ids: seq<nat>)
      requires Enabled(View(), Create(virtualUsers, parts))
      modifies this`runs, this`shards, this`fired, this`admitted
      ensures View() == Apply(old(View()), Create(virtualUsers, parts))
      ensures run == |old(runs)| && |ids| == |parts|
      ensures runs == old(runs) + [RunRow(virtualUsers, |parts|, Queued, None, NO_COLUMNS, None, None)]
      ensures |shards| == |old(shards)| + |parts| && old(shards) <= shards
      ensures forall i :: 0 <= i < |ids| ==>
        && ids[i] == |old(shards)| + i
        && shards[ids[i]] == ShardRow(run, i, parts[i], ShardQueued, None, NO_PARTIAL, None, None)
    {
      run := |runs|;
      var inserted: seq<ShardRow> := [];
      ids := [];
      for i := 0 to |parts|
        invariant inserted == NewShards(run, parts)[..i]
        invariant |ids| == i && forall k :: 0 <= k < i ==> ids[k] == |shards| + k
      {
        inserted := inserted + [ShardRow(run, i, parts[i], ShardQueued, None, NO_PARTIAL, None, None)];
        ids := ids + [|shards| + i];
      }
      runs := runs + [RunRow(virtualUsers, |parts|, Queued, None, NO_COLUMNS, None, None)];
      shards := shards + inserted;
      fired := fired + [[]];
      admitted := admitted - 1;
    }

    // ---- Any interleaving ----

    /** One action of any client. */
    method Step(a: Action)
      requires Inv(View()) && Enabled(View(), a)
      modifies this
      ensures View() == Apply(old(View()), a)
    {
      match a
      case Admit =>
        var admit := Admit();
      case Create(virtualUsers, parts) =>
        var run, ids := CreateWithShards(virtualUsers, parts);
      case CreateFails =>
        admitted := admitted - 1;
      case Open(sid, call) =>
        Begin(sid, call);
      case Exec(sid, now) =>
        assert SessionOk(View(), sid);
        Execute(sid, now);
      case Abort(sid) =>
        Release(sid);
        Respond(sid, DbError);
    }
  }

  /**
   Any interleaving of clients, one statement at a time: the object's state is the state
   machine's, and the invariant behind the theorems holds throughout.
   */
  method Perform(store: TestRunStore, actions: seq<Action>)
    requires Inv(store.View()) && Legal(store.View(), actions)
    modifies store
    ensures store.View() == Run(old(store.View()), actions)
    ensures Inv(store.View()) && Later(old(store.View()), store.View())
  {
    RunInv(store.View(), actions);
    for i := 0 to |actions|
      invariant Inv(store.View()) && Legal(store.View(), actions[i..])
      invariant Run(store.View(), actions[i..]) == Run(old(store.View()), actions)
    {
      StepInv(store.View(), actions[i]);
      assert actions[i..][1..] == actions[i + 1..];
      store.Step(actions[i]);
    }
  }

  /** Where the barrier check leaves a finishing transaction: with the aggregate, or shards still outstanding. */
  ghost predicate BarrierStage(f: Session, visible: seq<ShardRow>, row: RunRow, now: int)
    requires f.Finishing?
  {
    if AllTerminal(visible, f.run) then
      && f.stage.Applied? && f.stage.current == row.status
      && (f.stage.write.Some? <==> row.status == Running || row.status == Cancelling)
      && (f.stage.write.Some? ==> Aggregated(row, f.stage.write.value, visible, f.run, now))
    else f.stage.Counted? && f.stage.remaining != 0
  }
}
