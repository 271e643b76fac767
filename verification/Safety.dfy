/** The invariant holds in every reachable state, and every later state is a successor. */
module Safety {
  import opened Wrappers
  import opened Tables
  import opened Database
  import opened Lifecycle
  import opened Barrier
  import opened BarrierSteps
  import opened BarrierCommit

  // ---- One statement of each kind of call ----

  /** A call is answered without touching a row or holding a lock. */
  lemma AnswerOnly(s: State, sid: nat, reply: Reply)
    requires Inv(s) && sid in s.sessions && !s.sessions[sid].Finishing?
    requires s.sessions[sid].Marking? ==> reply.Ok? || reply.DbError?
    requires ReplyOk(Answer(s, sid, reply), sid)
    ensures Inv(Answer(s, sid, reply)) && Later(s, Answer(s, sid, reply))
  {
    assert Released(s, sid) == s;
    ReleasedLocks(s, sid, Answer(s, sid, reply));
    AnswerStep(s, sid, reply);
  }

  /** The UPDATE matched no row because there is no such shard. */
  lemma ShardAbsentStep(s: State, sid: nat, now: int)
    requires Inv(s) && sid in s.sessions && s.sessions[sid].Waiting? && s.sessions[sid].call.OnShard()
    requires |s.shards| <= s.sessions[sid].call.shard
    ensures Inv(ExecShardCall(s, sid, now)) && Later(s, ExecShardCall(s, sid, now))
  {
    AnswerOnly(s, sid, NotFound);
  }

  lemma ShardMissReply(s: State, sid: nat)
    requires sid in s.sessions && s.sessions[sid].Waiting? && s.sessions[sid].call.OnShard()
    requires s.sessions[sid].call.shard < |s.shards|
    requires !ShardGuard(s.shards[s.sessions[sid].call.shard].status, s.sessions[sid].call)
    ensures ReplyOk(Answer(s, sid, ShardMiss(s.sessions[sid].call)), sid)
  {
  }

  /** The UPDATE matched no row because the shard's status does not pass the guard. */
  lemma ShardMissStep(s: State, sid: nat, now: int)
    requires Inv(s) && sid in s.sessions && s.sessions[sid].Waiting? && s.sessions[sid].call.OnShard()
    requires s.sessions[sid].call.shard < |s.shards|
    requires !ShardGuard(s.shards[s.sessions[sid].call.shard].status, s.sessions[sid].call)
    ensures Inv(ExecShardCall(s, sid, now)) && Later(s, ExecShardCall(s, sid, now))
  {
    ShardMissReply(s, sid);
    AnswerOnly(s, sid, ShardMiss(s.sessions[sid].call));
  }

  lemma ShardCallStep(s: State, sid: nat, now: int)
    requires Inv(s) && AboutToUpdate(s, sid)
    ensures Inv(ExecShardCall(s, sid, now)) && Later(s, ExecShardCall(s, sid, now))
  {
    if s.sessions[sid].call.Starts() {
      assert ShardOk(s, s.sessions[sid].call.shard);
      StartLocks(s, sid, now);
      StartSessions(s, sid, now);
      StartLater(s, sid, now);
      StartStep(s, sid, now);
    } else {
      BeginFinishLocks(s, sid, now);
      BeginFinishStep(s, sid, now);
    }
  }

  lemma RunMoved(s: State, t: State, sid: nat, r: nat)
    requires Inv(s) && RunRowMoved(s, t, sid, r) && RunOk(t, r) && ReplyOk(t, sid)
    ensures Inv(t) && Later(s, t)
  {
    assert SessionOk(s, sid);
    RunRowLater(s, t, sid, r);
    RunRowLocks(s, t, sid, r);
    RunRowSessions(s, t, sid, r);
    RunRowStep(s, t, sid, r);
  }

  lemma MarkStep(s: State, sid: nat, now: int)
    requires Inv(s) && sid in s.sessions && s.sessions[sid].Marking? && s.sessions[sid].run < |s.runs|
    requires CanExec(s, sid)
    ensures Inv(ExecMark(s, sid, now)) && Later(s, ExecMark(s, sid, now))
  {
    var r, t := s.sessions[sid].run, ExecMark(s, sid, now);
    assert SessionOk(s, sid) && RunOk(s, r);
    if s.runs[r].status.Queued? {
      assert RunRowMoved(s, t, sid, r);
      MovedRunOk(s, t, sid, r);
      RunMoved(s, t, sid, r);
    } else {
      assert t == Answer(s, sid, Ok);
      AnswerOnly(s, sid, Ok);
    }
  }

  /** A run-level UPDATE that matched no row. */
  lemma RunMissStep(s: State, sid: nat, now: int)
    requires Inv(s) && sid in s.sessions && s.sessions[sid].Waiting? && !s.sessions[sid].call.OnShard()
    requires |s.runs| <= TargetRun(s, sid) || Missed(s, sid)
    ensures Inv(ExecRunCall(s, sid, now)) && Later(s, ExecRunCall(s, sid, now))
  {
    var call := s.sessions[sid].call;
    var reply := if call.ClaimNext? then QueueEmpty else if |s.runs| <= call.run then NotFound else RunMiss(call);
    assert ExecRunCall(s, sid, now) == Answer(s, sid, reply);
    AnswerOnly(s, sid, reply);
  }

  ghost function TargetRun(s: State, sid: nat): nat
    requires sid in s.sessions && !s.sessions[sid].call.OnShard()
  {
    var call := s.sessions[sid].call;
    if call.ClaimNext? then OldestQueued(s.runs, s.runLock, 0) else call.run
  }

  ghost predicate Missed(s: State, sid: nat)
    requires sid in s.sessions && !s.sessions[sid].call.OnShard()
  {
    var call := s.sessions[sid].call;
    !call.ClaimNext? && call.run < |s.runs| && !RunGuard(s.runs[call.run].status, call)
  }

  lemma RunCallStep(s: State, sid: nat, now: int)
    requires Inv(s) && sid in s.sessions && s.sessions[sid].Waiting? && !s.sessions[sid].call.OnShard()
    requires CanExec(s, sid)
    requires TargetRun(s, sid) < |s.runs| && !Missed(s, sid)
    ensures Inv(ExecRunCall(s, sid, now)) && Later(s, ExecRunCall(s, sid, now))
  {
    var t, r := ExecRunCall(s, sid, now), TargetRun(s, sid);
    assert RunOk(s, r);
    RunCallMoves(s, sid, now, r);
    MovedRunOk(s, t, sid, r);
    RunMoved(s, t, sid, r);
  }

  lemma RunCallMoves(s: State, sid: nat, now: int, r: nat)
    requires sid in s.sessions && s.sessions[sid].Waiting? && !s.sessions[sid].call.OnShard()
    requires r < |s.runs| && r !in s.runLock && (s.runs[r].completedAt.Some? <==> s.runs[r].status.Terminal())
    requires r in s.overridden ==> s.runs[r].status.Terminal()
    requires var call := s.sessions[sid].call;
      if call.ClaimNext? then r == OldestQueued(s.runs, s.runLock, 0) else r == call.run && RunGuard(s.runs[r].status, call)
    ensures var t := ExecRunCall(s, sid, now);
      && RunRowMoved(s, t, sid, r) && !s.runs[r].status.Terminal()
      && (t.runs[r].completedAt.Some? <==> t.runs[r].status.Terminal())
      && (r in t.overridden <==> t.runs[r].status.Terminal()) && !t.runs[r].status.Cancelled?
      && ReplyOk(t, sid)
  {
  }

  // ---- Every step ----

  lemma StatementStep(s: State, sid: nat, now: int)
    requires Inv(s) && Rooted(s) && sid in s.sessions && CanExec(s, sid)
    ensures Inv(ExecStatement(s, sid, now)) && Later(s, ExecStatement(s, sid, now))
  {
    var f := s.sessions[sid];
    if f.Finishing? {
      assert SessionOk(s, sid);
      if AtCommit(f) {
        CommitStep(s, sid);
      } else {
        ReadLocks(s, sid, now);
        ReadRows(s, sid, now);
      }
    } else if f.Marking? {
      MarkStep(s, sid, now);
    } else if !f.call.OnShard() {
      if |s.runs| <= TargetRun(s, sid) || Missed(s, sid) {
        RunMissStep(s, sid, now);
      } else {
        RunCallStep(s, sid, now);
      }
    } else if |s.shards| <= f.call.shard {
      ShardAbsentStep(s, sid, now);
    } else if ShardGuard(s.shards[f.call.shard].status, f.call) {
      ShardCallStep(s, sid, now);
    } else {
      ShardMissStep(s, sid, now);
    }
  }

  lemma AbortStep(s: State, sid: nat)
    requires Inv(s) && sid in s.sessions
    ensures var t := Answer(Released(s, sid), sid, DbError); Inv(t) && Later(s, t)
  {
    ReleasedLocks(s, sid, Answer(Released(s, sid), sid, DbError));
    AnswerStep(s, sid, DbError);
  }

  lemma CreateLocks(s: State, virtualUsers: int, parts: seq<int>)
    requires LocksOk(s) && Enabled(s, Create(virtualUsers, parts))
    ensures LocksOk(Apply(s, Create(virtualUsers, parts)))
  {
    var t := Apply(s, Create(virtualUsers, parts));
    forall x | x in t.sessions && t.sessions[x].Finishing?
      ensures Holds(t, x, t.sessions[x])
    {
      assert Holds(s, x, s.sessions[x]);
    }
  }

  /** Every action preserves the invariant, and rows only move forward. */
  lemma StepInv(s: State, a: Action)
    requires Inv(s) && Enabled(s, a)
    ensures Inv(Apply(s, a)) && Later(s, Apply(s, a))
  {
    match a
    case Admit =>
      CounterStep(s, Apply(s, a));
      CounterLocks(s, Apply(s, a));
    case Create(virtualUsers, parts) =>
      CreateLocks(s, virtualUsers, parts);
      CreateLater(s, virtualUsers, parts);
      CreateStep(s, virtualUsers, parts);
    case CreateFails =>
      CounterStep(s, Apply(s, a));
      CounterLocks(s, Apply(s, a));
    case Open(sid, call) =>
      OpenLocks(s, sid, call);
      OpenStep(s, sid, call);
    case Exec(sid, now) => StatementStep(s, sid, now);
    case Abort(sid) => AbortStep(s, sid);
  }

  lemma {:induction false} RunInv(s: State, actions: seq<Action>)
    requires Inv(s) && Legal(s, actions)
    ensures Inv(Run(s, actions)) && Later(s, Run(s, actions))
    decreases |actions|
  {
    if actions == [] {
      LaterRefl(s);
    } else {
      var t := Apply(s, actions[0]);
      StepInv(s, actions[0]);
      RunInv(t, actions[1..]);
      LaterTrans(s, t, Run(t, actions[1..]));
    }
  }
}
