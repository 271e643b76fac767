/** Every statement of every call preserves the store's invariant. */
module BarrierSteps {
  import opened Wrappers
  import opened Tables
  import opened Database
  import opened Lifecycle
  import opened Barrier

  /** The part of the invariant that does not speak about locks. */
  ghost predicate RowsOk(s: State) {
    SessionsOk(s) && RunsOk(s) && ShardsOk(s) && RepliesOk(s)
  }

  lemma OpenLocks(s: State, sid: nat, call: Call)
    requires LocksOk(s) && sid !in s.sessions
    ensures LocksOk(s.(sessions := s.sessions[sid := Waiting(call)]))
  {
    var t := s.(sessions := s.sessions[sid := Waiting(call)]);
    forall x | x in t.sessions && t.sessions[x].Finishing?
      ensures Holds(t, x, t.sessions[x])
    {
      assert Holds(s, x, s.sessions[x]);
    }
  }

  lemma OpenStep(s: State, sid: nat, call: Call)
    requires RowsOk(s) && sid !in s.sessions && sid !in s.replies
    ensures var t := s.(sessions := s.sessions[sid := Waiting(call)]); RowsOk(t) && Later(s, t)
  {
    TablesUntouched(s, s.(sessions := s.sessions[sid := Waiting(call)]), sid);
  }

  lemma CounterStep(s: State, t: State)
    requires RowsOk(s) && s.peak <= t.peak && t == s.(admitted := t.admitted, peak := t.peak)
    ensures RowsOk(t) && Later(s, t)
  {
    var unused := UnusedId(s.sessions.Keys + s.replies.Keys);
    TablesUntouched(s, t, unused);
  }

  lemma CounterLocks(s: State, t: State)
    requires LocksOk(s) && t == s.(admitted := t.admitted, peak := t.peak)
    ensures LocksOk(t)
  {
  }

  lemma UnusedId(used: set<nat>) returns (x: nat)
    ensures x !in used && forall y :: y in used ==> y < x
  {
    if used == {} {
      x := 0;
    } else {
      var y :| y in used;
      var z := UnusedId(used - {y});
      x := if y < z then z else y + 1;
      assert forall w :: w in used ==> w == y || w in used - {y};
    }
  }

  /** A call ends without changing any row, giving up whatever locks it had. */
  lemma AnswerStep(s: State, sid: nat, reply: Reply)
    requires RowsOk(s) && sid in s.sessions
    requires s.sessions[sid].Marking? ==> reply.Ok? || reply.DbError?
    requires ReplyOk(Answer(Released(s, sid), sid, reply), sid)
    ensures var t := Answer(Released(s, sid), sid, reply); RowsOk(t) && Later(s, t)
  {
    assert SessionOk(s, sid);
    TablesUntouched(s, Answer(Released(s, sid), sid, reply), sid);
  }

  lemma ReleasedLocks(s: State, sid: nat, t: State)
    requires LocksOk(s) && sid in s.sessions
    requires t.sessions == s.sessions - {sid}
    requires t.shardLock == Released(s, sid).shardLock && t.runLock == Released(s, sid).runLock
    ensures LocksOk(t)
  {
    forall x | x in t.sessions && t.sessions[x].Finishing?
      ensures Holds(t, x, t.sessions[x])
    {
      assert Holds(s, x, s.sessions[x]);
      if s.sessions[sid].Finishing? {
        assert Holds(s, sid, s.sessions[sid]);
      }
    }
  }

  // ---- The first statement of a shard call ----

  ghost predicate AboutToUpdate(s: State, sid: nat) {
    && sid in s.sessions && s.sessions[sid].Waiting? && s.sessions[sid].call.OnShard()
    && s.sessions[sid].call.shard < |s.shards|
    && ShardGuard(s.shards[s.sessions[sid].call.shard].status, s.sessions[sid].call)
    && s.sessions[sid].call.shard !in s.shardLock
  }

  lemma StartLocks(s: State, sid: nat, now: int)
    requires LocksOk(s) && AboutToUpdate(s, sid) && s.sessions[sid].call.Starts()
    ensures LocksOk(ExecShardCall(s, sid, now))
  {
    var t := ExecShardCall(s, sid, now);
    forall x | x in t.sessions && t.sessions[x].Finishing?
      ensures Holds(t, x, t.sessions[x])
    {
      assert Holds(s, x, s.sessions[x]);
    }
  }

  lemma StartLater(s: State, sid: nat, now: int)
    requires AboutToUpdate(s, sid) && s.sessions[sid].call.Starts()
    ensures Later(s, ExecShardCall(s, sid, now))
  {
  }

  lemma StartSessions(s: State, sid: nat, now: int)
    requires LocksOk(s) && SessionsOk(s) && AboutToUpdate(s, sid) && s.sessions[sid].call.Starts()
    requires s.shards[s.sessions[sid].call.shard].runId < |s.runs|
    ensures SessionsOk(ExecShardCall(s, sid, now))
  {
    var t := ExecShardCall(s, sid, now);
    StartLater(s, sid, now);
    assert SessionOk(s, sid);
    forall x | x in s.sessions && x != sid && s.sessions[x].Finishing?
      ensures Spares(s, t, s.sessions[x])
    {
      assert Holds(s, x, s.sessions[x]);
    }
    KeepSessions(s, t, sid);
  }

  lemma StartStep(s: State, sid: nat, now: int)
    requires RowsOk(s)
    requires AboutToUpdate(s, sid) && s.sessions[sid].call.Starts()
    ensures var t := ExecShardCall(s, sid, now); RunsOk(t) && ShardsOk(t) && RepliesOk(t)
  {
    var t := ExecShardCall(s, sid, now);
    var sh := s.sessions[sid].call.shard;
    StartLater(s, sid, now);
    assert SessionOk(s, sid) && ShardOk(s, sh);
    KeepRuns(s, t);
    assert StarterOk(t, sh) && ShardOk(t, sh);
    assert forall i :: 0 <= i < |t.shards| && i != sh ==> ShardKept(s, t, i);
    KeepShards(s, t, sid);
    KeepReplies(s, t, sid);
  }

  lemma BeginFinishLocks(s: State, sid: nat, now: int)
    requires LocksOk(s) && AboutToUpdate(s, sid) && s.sessions[sid].call.Finishes()
    ensures LocksOk(ExecShardCall(s, sid, now))
  {
    var t := ExecShardCall(s, sid, now);
    forall x | x in t.sessions && t.sessions[x].Finishing?
      ensures Holds(t, x, t.sessions[x])
    {
      if x != sid {
        assert Holds(s, x, s.sessions[x]);
      }
    }
  }

  lemma BeginFinishStep(s: State, sid: nat, now: int)
    requires RowsOk(s) && AboutToUpdate(s, sid) && s.sessions[sid].call.Finishes()
    ensures var t := ExecShardCall(s, sid, now); RowsOk(t) && Later(s, t)
  {
    var t := ExecShardCall(s, sid, now);
    var call := s.sessions[sid].call;
    assert SessionOk(s, sid) && ShardOk(s, call.shard);
    assert FinishingOk(t, t.sessions[sid]);
    TablesUntouched(s, t, sid);
  }

  // ---- Statements on a run row outside the barrier ----

  /** t is s with one unlocked, non-terminal run row moved forward and call sid answered. */
  ghost predicate RunRowMoved(s: State, t: State, sid: nat, r: nat) {
    && sid in s.sessions && !s.sessions[sid].Finishing?
    && r < |s.runs| && r !in s.runLock && |t.runs| == |s.runs|
    && t == s.(runs := s.runs[r := t.runs[r]], overridden := t.overridden,
               sessions := s.sessions - {sid}, replies := s.replies[sid := Outcome(s.sessions[sid].call, Ok)])
    && RunLater(s.runs[r], t.runs[r])
    && (t.overridden == s.overridden || t.overridden == s.overridden + {r})
  }

  lemma RunRowLocks(s: State, t: State, sid: nat, r: nat)
    requires LocksOk(s) && RunRowMoved(s, t, sid, r)
    ensures LocksOk(t)
  {
    forall x | x in t.sessions && t.sessions[x].Finishing?
      ensures Holds(t, x, t.sessions[x])
    {
      assert Holds(s, x, s.sessions[x]);
    }
  }

  lemma RunRowLater(s: State, t: State, sid: nat, r: nat)
    requires RunRowMoved(s, t, sid, r) && sid !in s.replies
    ensures Later(s, t)
  {
  }

  lemma RunRowSessions(s: State, t: State, sid: nat, r: nat)
    requires LocksOk(s) && SessionsOk(s) && RunRowMoved(s, t, sid, r) && Later(s, t)
    ensures SessionsOk(t)
  {
    forall x | x in s.sessions && x != sid && s.sessions[x].Finishing?
      ensures Spares(s, t, s.sessions[x])
    {
      assert Holds(s, x, s.sessions[x]);
    }
    KeepSessions(s, t, sid);
  }

  lemma RunRowStep(s: State, t: State, sid: nat, r: nat)
    requires RowsOk(s)
    requires RunRowMoved(s, t, sid, r) && Later(s, t)
    requires RunOk(t, r) && ReplyOk(t, sid)
    ensures RunsOk(t) && ShardsOk(t) && RepliesOk(t)
  {
    assert SessionOk(s, sid);
    assert forall q :: 0 <= q < |t.runs| && q != r ==> RunKept(s, t, q);
    KeepRuns(s, t);
    KeepShards(s, t, sid);
    KeepReplies(s, t, sid);
  }

  /** A run row that was not terminal stays consistent when a guarded method moves it. */
  lemma MovedRunOk(s: State, t: State, sid: nat, r: nat)
    requires RunsOk(s) && RunRowMoved(s, t, sid, r)
    requires !s.runs[r].status.Terminal() && (t.runs[r].completedAt.Some? <==> t.runs[r].status.Terminal())
    requires r in t.overridden <==> t.runs[r].status.Terminal()
    requires !t.runs[r].status.Cancelled?
    ensures RunOk(t, r)
  {
    assert RunOk(s, r);
  }
}
