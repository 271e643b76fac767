/** Row locks never deadlock: every blocked call waits for a call that can go on. */
module Deadlock {
  import opened Database
  import opened Barrier
  import opened Theorems

  /** sid waits for a row lock that holder owns. */
  ghost predicate WaitsFor(s: State, sid: nat, holder: nat)
    requires sid in s.sessions
  {
    !CanExec(s, sid) &&
    match s.sessions[sid]
    case Waiting(call) =>
      if call.OnShard() then call.shard in s.shardLock && s.shardLock[call.shard] == holder
      else !call.ClaimNext? && call.run in s.runLock && s.runLock[call.run] == holder
    case Marking(_, _, run) => run in s.runLock && s.runLock[run] == holder
    case Finishing(_, _, run, _, _) => run in s.runLock && s.runLock[run] == holder
  }

  /** x can execute, or waits for a call that can. */
  ghost predicate Unblocks(s: State, x: nat)
    requires x in s.sessions
  {
    CanExec(s, x) || exists y :: y in s.sessions && WaitsFor(s, x, y) && CanExec(s, y)
  }

  /** A transaction that has locked its run row never waits again. */
  lemma RunHolderRuns(s: State, r: nat)
    requires Inv(s) && r in s.runLock
    ensures s.runLock[r] in s.sessions && CanExec(s, s.runLock[r])
  {
    assert RunHeld(s, r, s.runLock[r]);
    var x := s.runLock[r];
    assert Holds(s, x, s.sessions[x]);
  }

  /** A transaction that holds a shard row can go on, or waits for one that can. */
  lemma ShardHolderWaitsOnce(s: State, sh: nat)
    requires Inv(s) && sh in s.shardLock
    ensures s.shardLock[sh] in s.sessions && Unblocks(s, s.shardLock[sh])
  {
    assert ShardHeld(s, sh, s.shardLock[sh]);
    var x := s.shardLock[sh];
    var f := s.sessions[x];
    assert Holds(s, x, f);
    if f.run in s.runLock {
      RunHolderRuns(s, f.run);
      if !CanExec(s, x) {
        assert WaitsFor(s, x, s.runLock[f.run]);
      }
    }
  }

  /**
   Chains of waiting calls have length at most two: a call that cannot execute its
   next statement waits for a call that can, or for one that in turn waits for a call that can.
   */
  lemma NoDeadlock(s: State, sid: nat)
    requires Reachable(s) && sid in s.sessions && !CanExec(s, sid)
    ensures exists x :: x in s.sessions && WaitsFor(s, sid, x) && Unblocks(s, x)
  {
    ReachableInv(s);
    match s.sessions[sid]
    case Waiting(call) =>
      if call.OnShard() {
        ShardHolderWaitsOnce(s, call.shard);
        assert WaitsFor(s, sid, s.shardLock[call.shard]);
      } else {
        RunHolderRuns(s, call.run);
        assert WaitsFor(s, sid, s.runLock[call.run]);
      }
    case Marking(_, _, run) =>
      RunHolderRuns(s, run);
      assert WaitsFor(s, sid, s.runLock[run]);
    case Finishing(_, _, run, _, stage) =>
      assert Holds(s, sid, s.sessions[sid]);
      RunHolderRuns(s, run);
      assert WaitsFor(s, sid, s.runLock[run]);
  }

  /** In particular, as long as any call is in flight some call can execute a statement. */
  lemma SomeCallRuns(s: State)
    requires Reachable(s) && s.sessions != map[]
    ensures exists x :: x in s.sessions && CanExec(s, x)
  {
    var sid :| sid in s.sessions;
    if !CanExec(s, sid) {
      NoDeadlock(s, sid);
    }
  }
}
