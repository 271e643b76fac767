/** Finishing calls get through: an accepted one can always run to its commit by itself. */
module Completion {
  import opened Wrappers
  import opened Tables
  import opened Database
  import opened Barrier
  import opened BarrierCommit
  import opened Theorems
  import opened Effects
  import opened Witnesses

  lemma LeadsSelf(s: State)
    ensures Leads(s, s)
  {
    var none: seq<Action> := [];
    assert Legal(s, none) && Run(s, none) == s;
  }

  lemma LeadsOn(s: State, t: State, a: Action)
    requires Leads(s, t) && Enabled(t, a)
    ensures Leads(s, Apply(t, a))
  {
    var actions: seq<Action> :| Legal(s, actions) && t == Run(s, actions);
    var u := Apply(t, a);
    assert Legal(t, [a]) && Run(t, [a]) == u by {
      assert [a][1..] == [];
      assert Legal(u, []) && Run(u, []) == u;
    }
    RunAppend(s, actions, [a]);
  }

  /** Call sid has been accepted, and its shard row is the one its transaction has written. */
  ghost predicate Accepted(s: State, t: State, sid: nat)
    requires sid in s.sessions && s.sessions[sid].Finishing?
  {
    var f := s.sessions[sid];
    sid in t.replies && t.replies[sid] == Outcome(f.call, Ok) && f.shard < |t.shards| && t.shards[f.shard] == f.row
  }

  /** The commit of a transaction that has nothing left to read. */
  lemma CommitsNow(start: State, s: State, sid: nat) returns (t: State)
    requires Reachable(s) && Leads(start, s) && sid in s.sessions && AtCommit(s.sessions[sid]) && CanExec(s, sid)
    ensures Leads(start, t) && Accepted(s, t, sid)
  {
    ReachableRooted(s);
    LeadsOn(start, s, Exec(sid, 0));
    t := Commit(s, sid);
    Committed(s, sid);
  }

  /** A finishing transaction that is not blocked needs nobody else to reach its commit. */
  lemma {:induction false} FinishesAlone(start: State, s: State, sid: nat) returns (t: State)
    requires Reachable(s) && Leads(start, s) && sid in s.sessions && s.sessions[sid].Finishing? && CanExec(s, sid)
    ensures Leads(start, t) && Accepted(s, t, sid)
    decreases StagesLeft(s.sessions[sid].stage)
  {
    if AtCommit(s.sessions[sid]) {
      t := CommitsNow(start, s, sid);
    } else {
      var u := OneStatement(start, s, sid);
      t := FinishesAlone(start, u, sid);
    }
  }

  lemma OneStatement(start: State, s: State, sid: nat) returns (u: State)
    requires Reachable(s) && Leads(start, s) && sid in s.sessions && s.sessions[sid].Finishing? && CanExec(s, sid)
    requires !AtCommit(s.sessions[sid])
    ensures Reachable(u) && Leads(start, u) && Undisturbed(s, u, sid) && CanExec(u, sid)
    ensures StagesLeft(u.sessions[sid].stage) < StagesLeft(s.sessions[sid].stage)
  {
    ReachableRooted(s);
    LeadsOn(start, s, Exec(sid, 0));
    u := AdvanceUndisturbed(s, sid);
  }

  /**
   From every reachable state in which nobody holds the shard's row or its run's, a report of a
   running shard, or a dead-letter of an unfinished one, can be accepted; the shard's row is then
   what the caller said.
   */
  lemma ReportAccepted(s: State, sid: nat, call: Call) returns (t: State)
    requires Reachable(s) && sid !in s.sessions && sid !in s.replies && call.Finishes() && call.shard < |s.shards|
    requires s.shards[call.shard].status == ShardRunning || (call.FailShard? && s.shards[call.shard].status == ShardQueued)
    requires call.shard !in s.shardLock && s.shards[call.shard].runId !in s.runLock
    ensures Leads(s, t) && sid in t.replies && t.replies[sid] == Outcome(call, Ok)
    ensures call.shard < |t.shards| && Finished(s.shards[call.shard], t.shards[call.shard], call, 0)
  {
    var u := Opens(s, sid, call);
    t := FinishesAlone(s, u, sid);
  }

  lemma Opens(s: State, sid: nat, call: Call) returns (u: State)
    requires Reachable(s) && sid !in s.sessions && sid !in s.replies && call.Finishes() && call.shard < |s.shards|
    requires FinishAnswer(s.shards, call, Ok)
    requires call.shard !in s.shardLock && s.shards[call.shard].runId !in s.runLock
    ensures Reachable(u) && Leads(s, u) && sid in u.sessions && CanExec(u, sid)
    ensures var f := u.sessions[sid];
      f.Finishing? && f.call == call && f.shard == call.shard && Finished(s.shards[call.shard], f.row, call, 0)
  {
    ReachableRooted(s);
    LeadsSelf(s);
    LeadsOn(s, s, Open(sid, call));
    var o := OpenCall(s, sid, call);
    ReachableRooted(o);
    FinishStatement(o, sid, 0);
    LeadsOn(s, o, Exec(sid, 0));
    ReachableStep(o, Exec(sid, 0));
    u := Apply(o, Exec(sid, 0));
    assert u.runLock == s.runLock;
  }
}
