/** A duplicated first delivery never yields a second assignment. */
module Assignments {
  import opened Tables
  import opened Database
  import opened Lifecycle
  import opened Barrier
  import opened Safety
  import opened Calls
  import opened Theorems

  /** This StartShard call has found the shard queued and started it. */
  ghost predicate Started(s: State, sid: nat, sh: nat) {
    || (sid in s.sessions && s.sessions[sid].Marking? && s.sessions[sid].call == StartShard(sh))
    || (sid in s.replies && s.replies[sid] == Outcome(StartShard(sh), Ok))
  }

  ghost predicate StartsOnce(s: State) {
    && (forall sid, sh: nat :: Started(s, sid, sh) ==> sh < |s.shards| && !s.shards[sh].status.ShardQueued?)
    && (forall a, b, sh: nat :: Started(s, a, sh) && Started(s, b, sh) ==> a == b)
  }

  /** The call's first statement, about to find its shard queued. */
  ghost predicate AboutToStart(s: State, a: Action, sid: nat, sh: nat)
    requires Enabled(s, a)
  {
    && a.Exec? && a.sid == sid && s.sessions[sid] == Waiting(StartShard(sh))
    && sh < |s.shards| && s.shards[sh].status.ShardQueued?
  }

  lemma FirstStatement(s: State, sid: nat, now: int, sh: nat)
    requires sid in s.sessions && s.sessions[sid].Waiting? && s.sessions[sid].call.OnShard() && sid !in s.replies
    requires Started(ExecShardCall(s, sid, now), sid, sh)
    ensures s.sessions[sid] == Waiting(StartShard(sh)) && sh < |s.shards| && s.shards[sh].status.ShardQueued?
  {
  }

  lemma OwnStatement(s: State, sid: nat, now: int, sh: nat)
    requires Rooted(s) && sid in s.sessions && SessionOk(s, sid) && Started(ExecStatement(s, sid, now), sid, sh)
    ensures Started(s, sid, sh) ||
      (s.sessions[sid] == Waiting(StartShard(sh)) && sh < |s.shards| && s.shards[sh].status.ShardQueued?)
  {
    var f := s.sessions[sid];
    StatementMoves(s, sid, now);
    if f.Waiting? && f.call.OnShard() {
      FirstStatement(s, sid, now, sh);
    }
  }

  lemma StartedBefore(s: State, a: Action, sid: nat, sh: nat)
    requires SessionsOk(s) && Enabled(s, a) && Started(Apply(s, a), sid, sh)
    ensures Started(s, sid, sh) || AboutToStart(s, a, sid, sh)
  {
    if a.Exec? && a.sid == sid {
      OwnStatement(s, sid, a.now, sh);
    } else if a.Exec? {
      StatementMoves(s, a.sid, a.now);
    } else if a.Abort? {
      assert GetsAnswer(s, Apply(s, a), a.sid);
    }
  }

  /** A start that matches leaves the shard no longer queued. */
  lemma LeavesQueued(s: State, a: Action, sid: nat, sh: nat)
    requires Enabled(s, a) && AboutToStart(s, a, sid, sh)
    ensures sh < |Apply(s, a).shards| && !Apply(s, a).shards[sh].status.ShardQueued?
  {
  }

  lemma StartsOnceStep(s: State, a: Action)
    requires Inv(s) && StartsOnce(s) && Enabled(s, a)
    ensures StartsOnce(Apply(s, a))
  {
    var t := Apply(s, a);
    StepInv(s, a);
    forall sid, sh: nat | Started(t, sid, sh)
      ensures sh < |t.shards| && !t.shards[sh].status.ShardQueued?
    {
      StartedBefore(s, a, sid, sh);
      if Started(s, sid, sh) {
        assert ShardLater(s.shards[sh], t.shards[sh]);
      } else {
        LeavesQueued(s, a, sid, sh);
      }
    }
    forall x, y, sh: nat | Started(t, x, sh) && Started(t, y, sh)
      ensures x == y
    {
      StartedBefore(s, a, x, sh);
      StartedBefore(s, a, y, sh);
    }
  }

  lemma {:induction false} StartsOnceRun(s: State, actions: seq<Action>)
    requires Inv(s) && StartsOnce(s) && Legal(s, actions)
    ensures StartsOnce(Run(s, actions))
    decreases |actions|
  {
    if actions != [] {
      StepInv(s, actions[0]);
      StartsOnceStep(s, actions[0]);
      StartsOnceRun(Apply(s, actions[0]), actions[1..]);
    }
  }

  /** Of all StartShard calls for a shard, however often it is delivered, at most one is ever assigned. */
  lemma OneFirstAssignment(s: State, a: nat, b: nat, sh: nat)
    requires Reachable(s)
    requires a in s.replies && s.replies[a] == Outcome(StartShard(sh), Ok)
    requires b in s.replies && s.replies[b] == Outcome(StartShard(sh), Ok)
    ensures a == b
  {
    var cap: int, actions: seq<Action> :| Legal(Init(cap), actions) && s == Run(Init(cap), actions);
    InitInv(cap);
    StartsOnceRun(Init(cap), actions);
    assert Started(s, a, sh) && Started(s, b, sh);
  }
}
