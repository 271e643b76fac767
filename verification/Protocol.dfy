/**
 Workers complete a shard only while holding an assignment for it. Under that
 discipline a hung run can only be the work of dead-lettering.
 */
module Protocol {
  import opened Wrappers
  import opened Tables
  import opened Database
  import opened Lifecycle
  import opened Barrier
  import opened BarrierCommit
  import opened Safety
  import opened Statements
  import opened Theorems

  /** Some start or take-over of the shard has been answered with an assignment. */
  ghost predicate Assigned(s: State, sh: nat) {
    exists sid :: sid in s.replies && s.replies[sid].call.Starts() && s.replies[sid].call.shard == sh && s.replies[sid].reply.Ok?
  }

  /** A shard is reported only by a caller that was given an assignment for it. */
  ghost predicate Follows(s: State, a: Action) {
    a.Open? && a.call.CompleteShard? ==> Assigned(s, a.call.shard)
  }

  ghost predicate Disciplined(s: State, actions: seq<Action>)
    decreases |actions|
  {
    actions == [] ||
    (Enabled(s, actions[0]) && Follows(s, actions[0]) && Disciplined(Apply(s, actions[0]), actions[1..]))
  }

  ghost predicate ReportsOk(s: State) {
    forall sid :: sid in s.sessions && s.sessions[sid].call.CompleteShard? ==> HandedOut(s, s.sessions[sid].call.shard)
  }

  ghost predicate CompletedOk(s: State) {
    forall sid :: sid in s.replies && s.replies[sid].call.CompleteShard? && s.replies[sid].reply.Ok? ==>
      HandedOut(s, s.replies[sid].call.shard)
  }

  /** The shard was finished by a FailShard call. */
  ghost predicate EndedByFail(s: State, sh: nat) {
    sh in s.winner && s.winner[sh] in s.replies && s.replies[s.winner[sh]].call.FailShard?
  }

  /** The barrier was fired by FailShard, and every shard of the run was finished by FailShard. */
  ghost predicate DeadLettered(s: State, r: nat)
    requires r < |s.fired|
  {
    && |s.fired[r]| == 1 && s.fired[r][0].call.FailShard?
    && forall sh :: 0 <= sh < |s.shards| && s.shards[sh].runId == r ==> EndedByFail(s, sh)
  }

  ghost predicate ProtocolOk(s: State) {
    && ReportsOk(s) && CompletedOk(s)
    && forall r :: 0 <= r < |s.fired| && FiredWhileQueued(s, r) ==> DeadLettered(s, r)
  }

  /** An assignment that is out implies that shard and run have left their queued states, for good. */
  lemma AssignedHandedOut(s: State, sh: nat)
    requires Inv(s) && Assigned(s, sh)
    ensures HandedOut(s, sh)
  {
    var sid :| sid in s.replies && s.replies[sid].call.Starts() && s.replies[sid].call.shard == sh && s.replies[sid].reply.Ok?;
    assert ReplyOk(s, sid);
  }

  lemma HandedOutStable(s: State, t: State, sh: nat)
    requires HandedOut(s, sh) && Later(s, t)
    ensures HandedOut(t, sh)
  {
    assert ShardLater(s.shards[sh], t.shards[sh]);
    assert RunLater(s.runs[s.shards[sh].runId], t.runs[s.shards[sh].runId]);
  }

  lemma ReportsStep(s: State, a: Action)
    requires Inv(s) && ReportsOk(s) && Enabled(s, a) && Follows(s, a)
    ensures ReportsOk(Apply(s, a))
  {
    var t := Apply(s, a);
    StepInv(s, a);
    if a.Open? || a.Exec? || a.Abort? {
      StatementSizes(s, a);
    }
    forall sid | sid in t.sessions && t.sessions[sid].call.CompleteShard?
      ensures HandedOut(t, t.sessions[sid].call.shard)
    {
      if a.Open? && a.sid == sid {
        AssignedHandedOut(s, a.call.shard);
      }
      HandedOutStable(s, t, t.sessions[sid].call.shard);
    }
  }

  /** No report is accepted between s and t. */
  ghost predicate NoReportAccepted(s: State, t: State) {
    forall sid :: sid in t.replies && sid !in s.replies ==> !(t.replies[sid].call.CompleteShard? && t.replies[sid].reply.Ok?)
  }

  lemma CompletedStable(s: State, t: State)
    requires CompletedOk(s) && Later(s, t) && NoReportAccepted(s, t)
    ensures CompletedOk(t)
  {
    forall sid | sid in t.replies && t.replies[sid].call.CompleteShard? && t.replies[sid].reply.Ok?
      ensures HandedOut(t, t.replies[sid].call.shard)
    {
      HandedOutStable(s, t, t.replies[sid].call.shard);
    }
  }

  lemma DeadLetteredStable(s: State, t: State, r: nat)
    requires RunsOk(t) && Later(s, t) && r < |s.fired| && r < |t.fired| && DeadLettered(s, r)
    requires forall sh :: |s.shards| <= sh < |t.shards| ==> t.shards[sh].runId != r
    ensures DeadLettered(t, r)
  {
    assert RunOk(t, r) && s.fired[r] <= t.fired[r];
    forall sh | 0 <= sh < |t.shards| && t.shards[sh].runId == r
      ensures EndedByFail(t, sh)
    {
      assert ShardLater(s.shards[sh], t.shards[sh]);
      assert EndedByFail(s, sh);
    }
  }

  /** Steps that fire no barrier. */
  lemma QuietKeeps(s: State, t: State)
    requires ProtocolOk(s) && RunsOk(t) && Later(s, t) && ReportsOk(t) && NoReportAccepted(s, t)
    requires forall r :: 0 <= r < |t.fired| ==> (r < |s.fired| && t.fired[r] == s.fired[r]) || t.fired[r] == []
    requires forall sh :: |s.shards| <= sh < |t.shards| ==> |s.fired| <= t.shards[sh].runId
    ensures ProtocolOk(t)
  {
    CompletedStable(s, t);
    forall r | 0 <= r < |t.fired| && FiredWhileQueued(t, r)
      ensures DeadLettered(t, r)
    {
      assert FiredWhileQueued(s, r);
      DeadLetteredStable(s, t, r);
    }
  }

  lemma CommitCompletedOk(s: State, sid: nat)
    requires ReportsOk(s) && CompletedOk(s) && Rooted(s) && ReadyToCommit(s, sid) && Later(s, Commit(s, sid))
    ensures CompletedOk(Commit(s, sid))
  {
    var t := Commit(s, sid);
    Committed(s, sid);
    forall x | x in t.replies && t.replies[x].call.CompleteShard? && t.replies[x].reply.Ok?
      ensures HandedOut(t, t.replies[x].call.shard)
    {
      HandedOutStable(s, t, t.replies[x].call.shard);
    }
  }

  /** A run that is still queued when its barrier fires has no accepted report. */
  lemma FiringDeadLettered(s: State, sid: nat)
    requires ReportsOk(s) && CompletedOk(s) && ShardsOk(s) && Rooted(s) && ReadyToCommit(s, sid)
    requires FinishingOk(s, s.sessions[sid])
    requires sid !in s.replies
    requires var f := s.sessions[sid]; f.stage.Applied? && f.stage.current.Queued? && s.fired[f.run] == []
    ensures DeadLettered(Commit(s, sid), s.sessions[sid].run)
  {
    var f, t := s.sessions[sid], Commit(s, sid);
    Committed(s, sid);
    assert f.call.CompleteShard? ==> HandedOut(s, f.shard);
    forall sh | 0 <= sh < |t.shards| && t.shards[sh].runId == f.run
      ensures EndedByFail(t, sh)
    {
      if sh != f.shard {
        assert ShardOk(s, sh) && WinnerOk(s, sh, s.winner[sh]);
        var w := s.winner[sh];
        assert s.replies[w].call.CompleteShard? ==> HandedOut(s, sh);
      }
    }
  }

  lemma CommitDeadLettered(s: State, sid: nat, r: nat)
    requires ProtocolOk(s) && ShardsOk(s) && Rooted(s) && ReadyToCommit(s, sid) && SessionOk(s, sid)
    requires RunsOk(Commit(s, sid)) && Later(s, Commit(s, sid))
    requires r < |Commit(s, sid).fired| && FiredWhileQueued(Commit(s, sid), r)
    requires r < |s.runs| && RunOk(s, r)
    ensures DeadLettered(Commit(s, sid), r)
  {
    Committed(s, sid);
    assert RunOk(Commit(s, sid), r);
    if FiredWhileQueued(s, r) {
      DeadLetteredStable(s, Commit(s, sid), r);
    } else {
      FiringDeadLettered(s, sid);
    }
  }

  lemma CommitProtocol(s: State, sid: nat)
    requires Inv(s) && ProtocolOk(s) && Rooted(s) && ReadyToCommit(s, sid)
    requires ReportsOk(Commit(s, sid))
    ensures ProtocolOk(Commit(s, sid))
  {
    CommitStep(s, sid);
    CommitCompletedOk(s, sid);
    Committed(s, sid);
    forall r | 0 <= r < |Commit(s, sid).fired| && FiredWhileQueued(Commit(s, sid), r)
      ensures DeadLettered(Commit(s, sid), r)
    {
      assert RunOk(s, r) && SessionOk(s, sid);
      CommitDeadLettered(s, sid, r);
    }
  }

  lemma QuietActions(s: State, a: Action)
    requires Inv(s) && Enabled(s, a) && !(a.Exec? && AtCommit(s.sessions[a.sid]))
    ensures var t := Apply(s, a);
      && NoReportAccepted(s, t)
      && (forall r :: 0 <= r < |t.fired| ==> (r < |s.fired| && t.fired[r] == s.fired[r]) || t.fired[r] == [])
      && (forall sh :: |s.shards| <= sh < |t.shards| ==> |s.fired| <= t.shards[sh].runId)
  {
    if a.Exec? {
      assert SessionOk(s, a.sid);
      StatementQuiet(s, a.sid, a.now);
    }
  }

  lemma ProtocolStep(s: State, a: Action)
    requires Inv(s) && ProtocolOk(s) && Enabled(s, a) && Follows(s, a)
    ensures ProtocolOk(Apply(s, a))
  {
    var t := Apply(s, a);
    ReportsStep(s, a);
    StepInv(s, a);
    if a.Exec? && AtCommit(s.sessions[a.sid]) {
      CommitProtocol(s, a.sid);
    } else {
      QuietActions(s, a);
      QuietKeeps(s, t);
    }
  }

  lemma {:induction false} RunProtocol(s: State, actions: seq<Action>)
    requires Inv(s) && ProtocolOk(s) && Disciplined(s, actions)
    ensures Legal(s, actions) && ProtocolOk(Run(s, actions))
    decreases |actions|
  {
    if actions != [] {
      StepInv(s, actions[0]);
      ProtocolStep(s, actions[0]);
      RunProtocol(Apply(s, actions[0]), actions[1..]);
    }
  }

  /**
   If shards are only reported under an assignment, then a hung run was fired by
   FailShard and every one of its shards was finished by FailShard: the run of a
   reported shard has left 'queued'. Nothing is assumed about run-level calls.
   */
  lemma HungByDeadLetter(cap: int, actions: seq<Action>, r: nat)
    requires Disciplined(Init(cap), actions)
    ensures Legal(Init(cap), actions)
    ensures var s := Run(Init(cap), actions);
      r < |s.runs| && r !in s.overridden && Hung(s, r) ==> r < |s.fired| && DeadLettered(s, r)
  {
    InitInv(cap);
    RunProtocol(Init(cap), actions);
    var s := Run(Init(cap), actions);
    if r < |s.runs| && r !in s.overridden && Hung(s, r) {
      assert Reachable(s);
      HungExactly(s, r);
    }
  }
}
