/** What becomes of a call in flight when the store takes a step. */
module Calls {
  import opened Database
  import opened Barrier
  import opened BarrierCommit

  /** Call sid goes on as the same call. */
  ghost predicate GoesOn(s: State, t: State, sid: nat) {
    && sid in s.sessions && sid in t.sessions
    && t.replies == s.replies && t.sessions == s.sessions[sid := t.sessions[sid]]
    && t.sessions[sid].call == s.sessions[sid].call
  }

  /** Starts and take-overs are refused with different answers. */
  ghost predicate Apt(call: Call, reply: Reply) {
    (call.StartShard? ==> !reply.AlreadyDone?) && (call.TakeOverShard? ==> !reply.NotQueued?)
  }

  /** Call sid is answered; "not found" is said only of absent shards. */
  ghost predicate GetsAnswer(s: State, t: State, sid: nat) {
    && sid in s.sessions && sid in t.replies
    && t.sessions == s.sessions - {sid} && t.replies == s.replies[sid := t.replies[sid]]
    && t.replies[sid].call == s.sessions[sid].call && Apt(t.replies[sid].call, t.replies[sid].reply)
    && (t.replies[sid].call.OnShard() && t.replies[sid].reply.NotFound? ==> |s.shards| <= t.replies[sid].call.shard)
  }

  lemma ShardCallMoves(s: State, sid: nat, now: int)
    requires sid in s.sessions && s.sessions[sid].call.OnShard()
    ensures GoesOn(s, ExecShardCall(s, sid, now), sid) || GetsAnswer(s, ExecShardCall(s, sid, now), sid)
  {
    var call, t := s.sessions[sid].call, ExecShardCall(s, sid, now);
    if |s.shards| <= call.shard || !ShardGuard(s.shards[call.shard].status, call) {
      assert GetsAnswer(s, t, sid);
    } else {
      assert GoesOn(s, t, sid);
    }
  }

  lemma RunCallMoves(s: State, sid: nat, now: int)
    requires sid in s.sessions && !s.sessions[sid].call.OnShard()
    ensures GetsAnswer(s, ExecRunCall(s, sid, now), sid)
  {
    var call := s.sessions[sid].call;
    if call.ClaimNext? {
      assert GetsAnswer(s, ExecRunCall(s, sid, now), sid);
    } else if |s.runs| <= call.run {
      assert GetsAnswer(s, Answer(s, sid, NotFound), sid);
    } else if !RunGuard(s.runs[call.run].status, call) {
      assert GetsAnswer(s, Answer(s, sid, RunMiss(call)), sid);
    } else {
      assert GetsAnswer(s, ExecRunCall(s, sid, now), sid);
    }
  }

  lemma FinishMoves(s: State, sid: nat, now: int)
    requires Rooted(s) && sid in s.sessions && s.sessions[sid].Finishing?
    ensures GoesOn(s, ExecFinish(s, sid, now), sid) || GetsAnswer(s, ExecFinish(s, sid, now), sid)
  {
    if AtCommit(s.sessions[sid]) {
      Committed(s, sid);
    } else {
      assert GoesOn(s, ExecFinish(s, sid, now), sid);
    }
  }

  lemma StatementMoves(s: State, sid: nat, now: int)
    requires Rooted(s) && sid in s.sessions
    ensures GoesOn(s, ExecStatement(s, sid, now), sid) || GetsAnswer(s, ExecStatement(s, sid, now), sid)
  {
    var f := s.sessions[sid];
    if f.Finishing? {
      FinishMoves(s, sid, now);
    } else if f.Marking? {
      assert GetsAnswer(s, ExecMark(s, sid, now), sid);
    } else if f.call.OnShard() {
      ShardCallMoves(s, sid, now);
    } else {
      RunCallMoves(s, sid, now);
    }
  }

  /** Call sid is still in flight in t, or answered there. */
  ghost predicate Continued(s: State, t: State, sid: nat)
    requires sid in s.sessions
  {
    var call := s.sessions[sid].call;
    || (sid in t.sessions && t.sessions[sid].call == call)
    || (sid in t.replies && t.replies[sid].call == call && Apt(call, t.replies[sid].reply)
        && (call.OnShard() && t.replies[sid].reply.NotFound? ==> |s.shards| <= call.shard))
  }

  /** Every call carries on, every answer stands. */
  ghost predicate Carries(s: State, t: State) {
    && (forall sid :: sid in s.sessions ==> Continued(s, t, sid))
    && (forall sid :: sid in s.replies ==> sid in t.replies && t.replies[sid] == s.replies[sid])
  }

  lemma MoveCarries(s: State, t: State, sid: nat)
    requires GoesOn(s, t, sid) || GetsAnswer(s, t, sid)
    requires sid !in s.replies
    ensures Carries(s, t)
  {
  }

  lemma ActionCarries(s: State, a: Action)
    requires SessionsOk(s) && Enabled(s, a)
    ensures Carries(s, Apply(s, a))
  {
    var t := Apply(s, a);
    if a.Exec? {
      assert SessionOk(s, a.sid);
      StatementMoves(s, a.sid, a.now);
      MoveCarries(s, t, a.sid);
    } else if a.Abort? {
      assert SessionOk(s, a.sid);
      assert GetsAnswer(s, t, a.sid);
      MoveCarries(s, t, a.sid);
    }
  }

  // ---- Start and take-over calls ----

  /** Call sid is a start or take-over of the shard, in flight or answered. */
  ghost predicate StartsOn(s: State, sid: nat, sh: nat) {
    || (sid in s.sessions && s.sessions[sid].call.Starts() && s.sessions[sid].call.shard == sh)
    || (sid in s.replies && s.replies[sid].call.Starts() && s.replies[sid].call.shard == sh)
  }

  /** The only call an action can add is the one it opens. */
  lemma ActionStarts(s: State, a: Action, sid: nat, sh: nat)
    requires Enabled(s, a) && StartsOn(Apply(s, a), sid, sh)
    ensures StartsOn(s, sid, sh) || (a.Open? && a.sid == sid && a.call.Starts() && a.call.shard == sh)
  {
    if a.Exec? {
      StatementMoves(s, a.sid, a.now);
    } else if a.Abort? {
      assert GetsAnswer(s, Apply(s, a), a.sid);
    }
  }
}
