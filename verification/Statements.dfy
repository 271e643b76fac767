/** What a single statement leaves alone. */
module Statements {
  import opened Tables
  import opened Database
  import opened Barrier
  import opened BarrierCommit

  /** No rows are added and the admission counters stand still. */
  ghost predicate SameSizes(s: State, t: State) {
    && |t.runs| == |s.runs| && |t.shards| == |s.shards|
    && t.admitted == s.admitted && t.peak == s.peak
  }

  /** Every call in flight in t was in flight, as the same call, in s. */
  ghost predicate CallsKept(s: State, t: State) {
    forall sid :: sid in t.sessions ==> sid in s.sessions && t.sessions[sid].call == s.sessions[sid].call
  }

  /** No shard report is accepted and no barrier fires. */
  ghost predicate Quiet(s: State, t: State) {
    && SameSizes(s, t) && CallsKept(s, t) && t.fired == s.fired
    && forall sid :: sid in t.replies && sid !in s.replies ==> !t.replies[sid].call.Finishes() || !t.replies[sid].reply.Ok?
  }

  /** Ending a call changes neither sizes nor other calls. */
  lemma AnswerQuiet(s: State, t: State, sid: nat, reply: Reply)
    requires sid in s.sessions && t.sessions == s.sessions
    requires SameSizes(s, t) && t.fired == s.fired && t.replies == s.replies
    requires !s.sessions[sid].call.Finishes() || !reply.Ok?
    ensures Quiet(s, Answer(t, sid, reply))
  {
  }

  lemma ShardStartQuiet(s: State, sid: nat, now: int)
    requires sid in s.sessions && s.sessions[sid].call.OnShard() && s.sessions[sid].call.shard < |s.shards|
    requires ShardGuard(s.shards[s.sessions[sid].call.shard].status, s.sessions[sid].call)
    ensures Quiet(s, ExecShardCall(s, sid, now))
  {
  }

  lemma ShardCallQuiet(s: State, sid: nat, now: int)
    requires sid in s.sessions && s.sessions[sid].call.OnShard()
    ensures Quiet(s, ExecShardCall(s, sid, now))
  {
    var call := s.sessions[sid].call;
    if |s.shards| <= call.shard {
      AnswerQuiet(s, s, sid, NotFound);
    } else if !ShardGuard(s.shards[call.shard].status, call) {
      AnswerQuiet(s, s, sid, ShardMiss(call));
    } else {
      ShardStartQuiet(s, sid, now);
    }
  }

  lemma MarkQuiet(s: State, sid: nat, now: int)
    requires sid in s.sessions && s.sessions[sid].Marking? && s.sessions[sid].run < |s.runs|
    requires s.sessions[sid].call.Starts()
    ensures Quiet(s, ExecMark(s, sid, now))
  {
  }

  lemma RunRowQuiet(s: State, sid: nat, r: nat, row: RunRow, overridden: set<nat>)
    requires sid in s.sessions && r < |s.runs| && !s.sessions[sid].call.OnShard()
    ensures Quiet(s, Answer(s.(runs := s.runs[r := row], overridden := overridden), sid, Ok))
  {
  }

  lemma RunCallQuiet(s: State, sid: nat, now: int)
    requires sid in s.sessions && !s.sessions[sid].call.OnShard()
    ensures Quiet(s, ExecRunCall(s, sid, now))
  {
    var call, t := s.sessions[sid].call, ExecRunCall(s, sid, now);
    var r := if call.ClaimNext? then OldestQueued(s.runs, s.runLock, 0) else call.run;
    if |s.runs| <= r {
      AnswerQuiet(s, s, sid, if call.ClaimNext? then QueueEmpty else NotFound);
    } else if call.ClaimNext? {
      RunRowQuiet(s, sid, r, Started(s.runs[r], now), s.overridden);
    } else if !RunGuard(s.runs[r].status, call) {
      AnswerQuiet(s, s, sid, RunMiss(call));
    } else {
      RunRowQuiet(s, sid, r, UpdatedRun(s.runs[r], call, now), t.overridden);
    }
  }

  lemma ReadQuiet(s: State, sid: nat, now: int)
    requires Rooted(s) && sid in s.sessions && s.sessions[sid].Finishing? && !AtCommit(s.sessions[sid])
    ensures Quiet(s, ExecFinish(s, sid, now))
  {
  }

  /** Everything but a commit is quiet. */
  lemma StatementQuiet(s: State, sid: nat, now: int)
    requires Rooted(s) && sid in s.sessions && !AtCommit(s.sessions[sid])
    requires s.sessions[sid].Marking? ==> s.sessions[sid].call.Starts()
    ensures Quiet(s, ExecStatement(s, sid, now))
  {
    var f := s.sessions[sid];
    if f.Finishing? {
      ReadQuiet(s, sid, now);
    } else if f.Marking? {
      MarkQuiet(s, sid, now);
    } else if f.call.OnShard() {
      ShardCallQuiet(s, sid, now);
    } else {
      RunCallQuiet(s, sid, now);
    }
  }

  lemma CommitSizes(s: State, sid: nat)
    requires Rooted(s) && ReadyToCommit(s, sid)
    ensures SameSizes(s, Commit(s, sid)) && CallsKept(s, Commit(s, sid))
  {
    Committed(s, sid);
  }

  lemma StatementSizes(s: State, a: Action)
    requires SessionsOk(s) && Enabled(s, a) && (a.Open? || a.Exec? || a.Abort?)
    ensures SameSizes(s, Apply(s, a))
    ensures !a.Open? ==> CallsKept(s, Apply(s, a))
  {
    if a.Exec? {
      assert SessionOk(s, a.sid);
      if AtCommit(s.sessions[a.sid]) {
        CommitSizes(s, a.sid);
      } else {
        StatementQuiet(s, a.sid, a.now);
      }
    }
  }
}
