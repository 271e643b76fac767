/** Concrete runs of the store showing that the hypotheses of the theorems are needed. */
module Witnesses {
  import opened Wrappers
  import opened Tables
  import opened Handlers
  import opened Database
  import opened Lifecycle
  import opened Barrier
  import opened BarrierCommit
  import opened Deadlock
  import opened Theorems

  lemma InitReachable(cap: int)
    ensures Reachable(Init(cap))
  {
    var none: seq<Action> := [];
    assert Legal(Init(cap), none) && Run(Init(cap), none) == Init(cap);
  }

  lemma OneOne()
    ensures EvenSplit([1], 1) && EvenSplit([1, 1], 2)
  {
    assert [1][..0] == [] && [1, 1][..1] == [1];
  }

  /** A freshly created run with the given shards, and nothing in flight. */
  ghost predicate Fresh(s: State, shards: nat) {
    && Reachable(s) && |s.runs| == 1 && s.runs[0].status.Queued? && |s.shards| == shards && s.fired == [[]]
    && (forall i :: 0 <= i < shards ==> s.shards[i].runId == 0 && s.shards[i].status.ShardQueued?)
    && s.sessions == map[] && s.shardLock == map[] && s.runLock == map[] && s.replies == map[] && s.overridden == {}
  }

  lemma FreshRun(parts: seq<int>, total: int) returns (s: State)
    requires parts != [] && EvenSplit(parts, total)
    ensures Fresh(s, |parts|)
  {
    var init := Init(0);
    InitReachable(0);
    assert Enabled(init, Admit);
    ReachableStep(init, Admit);
    var admitted := Apply(init, Admit);
    assert admitted == init.(admitted := 1, peak := 1);
    s := CreatedRun(admitted, parts, total);
  }

  lemma CreatedRun(a: State, parts: seq<int>, total: int) returns (s: State)
    requires Reachable(a) && a == Init(0).(admitted := 1, peak := 1)
    requires parts != [] && EvenSplit(parts, total)
    ensures Fresh(s, |parts|)
  {
    assert Enabled(a, Create(total, parts));
    ReachableStep(a, Create(total, parts));
    s := Apply(a, Create(total, parts));
  }

  lemma ReachableRooted(s: State)
    requires Reachable(s)
    ensures Rooted(s)
  {
    ReachableInv(s);
    InvRooted(s);
  }

  /** Carrying out a call's next statement. */
  lemma Next(s: State, sid: nat) returns (t: State)
    requires Reachable(s) && sid in s.sessions && CanExec(s, sid)
    ensures Reachable(t) && Rooted(s) && t == ExecStatement(s, sid, 0)
  {
    ReachableRooted(s);
    ReachableStep(s, Exec(sid, 0));
    t := Apply(s, Exec(sid, 0));
  }

  lemma OpenCall(s: State, sid: nat, call: Call) returns (t: State)
    requires Reachable(s) && sid !in s.sessions && sid !in s.replies
    ensures Reachable(t) && t == s.(sessions := s.sessions[sid := Waiting(call)])
  {
    ReachableRooted(s);
    ReachableStep(s, Open(sid, call));
    t := Apply(s, Open(sid, call));
  }

  /** The next statement of a finishing transaction that is not at its commit. */
  lemma Advance(s: State, sid: nat) returns (t: State)
    requires Reachable(s) && sid in s.sessions && s.sessions[sid].Finishing? && !AtCommit(s.sessions[sid])
    requires CanExec(s, sid)
    ensures Reachable(t) && Rooted(s) && t == ExecStatement(s, sid, 0)
    ensures t.runs == s.runs && t.shards == s.shards && t.fired == s.fired && t.overridden == s.overridden
    ensures var f := s.sessions[sid];
      && t.sessions == s.sessions[sid := f.(stage := NextStage(f, Visible(s.shards, f), s.runs[f.run], 0))]
      && t.runLock == s.runLock[f.run := sid]
  {
    ReachableInv(s);
    t := Next(s, sid);
    NextStageAdvances(s, sid, 0);
  }

  function StagesLeft(stage: Stage): nat {
    match stage
    case Updated => 6
    case Locked => 5
    case Counted(_) => 4
    case Summed(_) => 3
    case Merged(_, _) => 2
    case Seen(_, _, _) => 1
    case Applied(_, _) => 0
  }

  /** Only call sid has moved, and it holds its run row. */
  ghost predicate Undisturbed(s: State, t: State, sid: nat)
    requires sid in s.sessions && s.sessions[sid].Finishing?
  {
    && t.runs == s.runs && t.shards == s.shards && t.fired == s.fired && t.overridden == s.overridden
    && sid in t.sessions && t.sessions[sid].Finishing?
    && t.sessions == s.sessions[sid := s.sessions[sid].(stage := t.sessions[sid].stage)]
    && t.runLock == s.runLock[s.sessions[sid].run := sid]
  }

  lemma UndisturbedTrans(s: State, t: State, u: State, sid: nat)
    requires sid in s.sessions && s.sessions[sid].Finishing? && Undisturbed(s, t, sid)
    requires Undisturbed(t, u, sid)
    ensures Undisturbed(s, u, sid)
  {
  }

  /** One statement further, still able to go on. */
  lemma AdvanceUndisturbed(s: State, sid: nat) returns (t: State)
    requires Reachable(s) && sid in s.sessions && s.sessions[sid].Finishing? && !AtCommit(s.sessions[sid])
    requires CanExec(s, sid)
    ensures Reachable(t) && Rooted(s) && t == ExecStatement(s, sid, 0)
    ensures Rooted(t) && Undisturbed(s, t, sid) && CanExec(t, sid)
    ensures t.sessions[sid].stage == NextStage(s.sessions[sid], Visible(s.shards, s.sessions[sid]), s.runs[s.sessions[sid].run], 0)
  {
    t := Advance(s, sid);
    ReachableInv(t);
    InvRooted(t);
    RunHolderRuns(t, s.sessions[sid].run);
  }

  lemma VerdictRead(s: State, sid: nat)
    requires Reachable(s) && sid in s.sessions && s.sessions[sid].Finishing? && s.sessions[sid].stage.Applied?
    ensures Undisturbed(s, s, sid)
    ensures s.sessions[sid].run < |s.runs|
    ensures var f := s.sessions[sid];
      f.stage.current == s.runs[f.run].status && (f.stage.write.Some? <==> BarrierGuard(s.runs[f.run].status))
  {
    ReachableInv(s);
    assert SessionOk(s, sid) && Holds(s, sid, s.sessions[sid]);
    assert s.runLock == s.runLock[s.sessions[sid].run := sid];
  }

  lemma NotLeaving(s: State, sid: nat)
    requires Reachable(s) && sid in s.sessions && s.sessions[sid].Finishing? && Rooted(s)
    requires AllTerminal(Visible(s.shards, s.sessions[sid]), s.sessions[sid].run)
    ensures AtCommit(s.sessions[sid]) ==> s.sessions[sid].stage.Applied?
  {
    ReachableInv(s);
    assert SessionOk(s, sid);
  }

  /** An undisturbed finisher of a run's last shard gets to the point of committing its verdict. */
  lemma DriveToVerdict(s: State, sid: nat) returns (t: State)
    requires Reachable(s) && Rooted(s) && sid in s.sessions && s.sessions[sid].Finishing? && CanExec(s, sid)
    requires AllTerminal(Visible(s.shards, s.sessions[sid]), s.sessions[sid].run)
    ensures Reachable(t) && Rooted(t) && Undisturbed(s, t, sid)
    ensures var f, g := s.sessions[sid], t.sessions[sid];
      g.stage.Applied? && g.stage.current == s.runs[f.run].status && (g.stage.write.Some? <==> BarrierGuard(s.runs[f.run].status))
    decreases StagesLeft(s.sessions[sid].stage)
  {
    NotLeaving(s, sid);
    if s.sessions[sid].stage.Applied? {
      VerdictRead(s, sid);
      t := s;
    } else {
      var u := AdvanceUndisturbed(s, sid);
      t := DriveToVerdict(u, sid);
      UndisturbedTrans(s, u, t, sid);
    }
  }

  lemma Finish(s: State, sid: nat) returns (t: State)
    requires Reachable(s) && Rooted(s) && sid in s.sessions && AtCommit(s.sessions[sid])
    ensures Reachable(t) && t == Commit(s, sid)
  {
    t := Next(s, sid);
  }

  /** Opening a start or take-over and carrying out its first statement. */
  lemma OpenStart(s: State, sid: nat, call: Call) returns (t: State)
    requires Reachable(s) && sid !in s.sessions && sid !in s.replies && call.Starts()
    requires call.shard < |s.shards| && ShardGuard(s.shards[call.shard].status, call) && call.shard !in s.shardLock
    ensures Reachable(t) && Rooted(t)
    ensures var row := s.shards[call.shard];
      t == s.(sessions := s.sessions[sid := Marking(call, call.shard, row.runId)], starter := s.starter[call.shard := sid],
              shards := s.shards[call.shard := row.(status := ShardRunning, startedAt := Some(0))])
  {
    var u := OpenCall(s, sid, call);
    t := Next(u, sid);
    ReachableRooted(t);
  }

  /** Opening a report or a dead-letter and carrying out its first statement. */
  lemma OpenFinish(s: State, sid: nat, call: Call) returns (t: State)
    requires Reachable(s) && sid !in s.sessions && sid !in s.replies && call.Finishes()
    requires call.shard < |s.shards| && ShardGuard(s.shards[call.shard].status, call) && call.shard !in s.shardLock
    ensures Reachable(t) && Rooted(t)
    ensures var row := s.shards[call.shard];
      t == s.(sessions := s.sessions[sid := Finishing(call, call.shard, row.runId, FinishedRow(row, call, 0), Updated)],
              shardLock := s.shardLock[call.shard := sid])
  {
    var u := OpenCall(s, sid, call);
    t := Next(u, sid);
    ReachableRooted(t);
  }

  /**
   Dead-lettering the only shard of a run that has not left 'queued' hangs the run, although
   FailShard is meant to finish it; the second statement of a slow start then moves the hung
   run to 'running', where it stays.
   */
  lemma HungRunExists() returns (s: State)
    ensures Reachable(s) && |s.runs| == 1 && 0 !in s.overridden
    ensures Hung(s, 0) && s.runs[0].status.Running? && s.sessions == map[]
  {
    OneOne();
    var a := FreshRun([1], 1);
    var b := OpenStart(a, 0, StartShard(0));
    var c := OpenFinish(b, 1, FailShard(0, "dead"));
    var d := DriveToVerdict(c, 1);
    var e := Finish(d, 1);
    CommittedTables(d, 1);
    assert Hung(e, 0) && e.runs[0].status.Queued? && e.sessions.Keys == {0};
    s := LateMark(e);
  }

  lemma CommittedTables(s: State, sid: nat)
    requires Reachable(s) && Rooted(s) && sid in s.sessions && AtCommit(s.sessions[sid])
    ensures var f, t := s.sessions[sid], Commit(s, sid);
      && t.shards == Visible(s.shards, f)
      && t.runs == (if f.stage.Applied? && f.stage.write.Some? then s.runs[f.run := f.stage.write.value] else s.runs)
      && t.fired == (if f.stage.Applied? then s.fired[f.run := s.fired[f.run] + [Firing(f.stage.current, f.call)]] else s.fired)
      && t.sessions == s.sessions - {sid} && t.overridden == s.overridden
      && f.run !in t.runLock
  {
    ReachableInv(s);
    Committed(s, sid);
    assert SessionOk(s, sid) && Holds(s, sid, s.sessions[sid]);
  }

  /** The delayed second statement of startShard, after the barrier has given up on the run. */
  lemma LateMark(s: State) returns (t: State)
    requires Reachable(s) && |s.runs| == 1 && s.runs[0].status.Queued? && Hung(s, 0) && 0 !in s.overridden
    requires s.sessions.Keys == {0} && s.sessions[0].Marking? && s.sessions[0].run == 0 && 0 !in s.runLock
    ensures Reachable(t) && |t.runs| == 1 && 0 !in t.overridden
    ensures Hung(t, 0) && t.runs[0].status.Running? && t.sessions == map[]
  {
    t := Next(s, 0);
  }

  // ---- Without the run-row lock ----

  /** finishShard as it would be without SELECT ... FOR UPDATE: its second statement takes no lock. */
  ghost function ExecUnlocked(s: State, sid: nat, now: int): State
    requires Rooted(s) && sid in s.sessions
  {
    if s.sessions[sid].Finishing? && s.sessions[sid].stage.Updated? then AtStage(s, sid, Locked)
    else ExecStatement(s, sid, now)
  }

  ghost predicate UnlockedStep(s: State, t: State) {
    Rooted(s) && exists sid :: sid in s.sessions && s.sessions[sid].Finishing? && t == ExecUnlocked(s, sid, 0)
  }

  ghost predicate UnlockedPath(path: seq<State>) {
    path != [] && forall i :: 0 <= i < |path| - 1 ==> UnlockedStep(path[i], path[i + 1])
  }

  /** A running run whose only two shards are both being completed. */
  ghost predicate TwoFinishers(s: State) {
    && Rooted(s) && |s.runs| == 1 && s.runs[0].status.Running? && s.fired == [[]] && |s.shards| == 2 && 0 !in s.overridden
    && (forall i :: 0 <= i < 2 ==> s.shards[i].runId == 0 && s.shards[i].status.ShardRunning?)
    && s.sessions.Keys == {2, 3} && s.runLock == map[]
    && (forall i :: 2 <= i < 4 ==>
          s.sessions[i].Finishing? && s.sessions[i].shard == i - 2 && s.sessions[i].run == 0
          && s.sessions[i].stage.Updated? && s.sessions[i].row.runId == 0 && s.sessions[i].row.status.Terminal())
  }

  lemma StartBoth() returns (s: State)
    ensures Reachable(s) && |s.runs| == 1 && s.runs[0].status.Running? && s.fired == [[]] && |s.shards| == 2
    ensures forall i :: 0 <= i < 2 ==> s.shards[i].runId == 0 && s.shards[i].status.ShardRunning?
    ensures s.sessions == map[] && s.runLock == map[] && s.shardLock == map[] && s.replies.Keys == {0, 1}
    ensures s.overridden == {}
  {
    OneOne();
    var a := FreshRun([1, 1], 2);
    var b := OpenStart(a, 0, StartShard(0));
    var c := MarkFirst(b, 0);
    var d := OpenStart(c, 1, StartShard(1));
    s := MarkFirst(d, 1);
  }

  lemma MarkFirst(s: State, sid: nat) returns (t: State)
    requires Reachable(s) && Rooted(s) && s.sessions.Keys == {sid} && s.sessions[sid].Marking?
    requires s.sessions[sid].run == 0
    requires |s.runs| == 1 && (s.runs[0].status.Queued? || s.runs[0].status.Running?) && s.runLock == map[]
    ensures Reachable(t) && |t.runs| == 1 && t.runs[0].status.Running? && t.shards == s.shards && t.fired == s.fired
    ensures t.sessions == map[] && t.runLock == map[] && t.shardLock == s.shardLock && t.overridden == s.overridden
    ensures t.replies.Keys == s.replies.Keys + {sid}
  {
    t := Next(s, sid);
    assert t.sessions.Keys == {};
  }

  lemma BothFinishing() returns (s: State)
    ensures Reachable(s) && TwoFinishers(s)
  {
    var a := StartBoth();
    var report := Report(true, None, NO_PARTIAL);
    var b := OpenFinish(a, 2, CompleteShard(0, report));
    s := OpenFinish(b, 3, CompleteShard(1, report));
  }

  lemma TwoOutstanding(shards: seq<ShardRow>, i: nat, row: ShardRow)
    requires |shards| == 2 && i < 2 && row.runId == 0 && row.status.Terminal()
    requires forall k :: 0 <= k < 2 ==> shards[k].runId == 0 && !shards[k].status.Terminal()
    ensures Outstanding(shards[i := row], 0) != 0
  {
    NoneOutstanding(shards[i := row], 0);
    assert shards[i := row][1 - i] == shards[1 - i];
  }

  /** A finisher runs its unlocked second statement and its count. */
  lemma CountUnlocked(a: State, sid: nat) returns (b: State, c: State)
    requires Rooted(a) && sid in a.sessions && a.sessions[sid].Finishing? && a.sessions[sid].stage.Updated?
    ensures UnlockedStep(a, b) && UnlockedStep(b, c)
    ensures var f := a.sessions[sid];
      c == a.(sessions := a.sessions[sid := f.(stage := Counted(Outstanding(Visible(a.shards, f), f.run)))])
  {
    b := ExecUnlocked(a, sid, 0);
    assert b == AtStage(a, sid, Locked);
    c := ExecUnlocked(b, sid, 0);
  }

  /** Both finishers take their unlocked snapshot before either commits. */
  lemma BothCount(a: State) returns (path: seq<State>, n: nat, m: nat)
    requires TwoFinishers(a)
    ensures UnlockedPath(path) && path[0] == a && n != 0 && m != 0
    ensures path[|path| - 1] == a.(sessions := a.sessions[2 := a.sessions[2].(stage := Counted(n))][3 := a.sessions[3].(stage := Counted(m))])
  {
    n := Outstanding(Visible(a.shards, a.sessions[2]), 0);
    m := Outstanding(Visible(a.shards, a.sessions[3]), 0);
    TwoOutstanding(a.shards, 0, a.sessions[2].row);
    TwoOutstanding(a.shards, 1, a.sessions[3].row);
    var b, c := CountUnlocked(a, 2);
    var d, e := CountUnlocked(c, 3);
    path := [a, b, c, d, e];
  }

  /** Dropping the run-row lock loses the barrier: neither of two concurrent finishers aggregates. */
  lemma WithoutRunLockHangs() returns (path: seq<State>)
    ensures UnlockedPath(path) && Reachable(path[0])
    ensures var s := path[|path| - 1];
      |s.runs| == 1 && Hung(s, 0) && s.runs[0].status.Running? && 0 !in s.overridden && s.fired == [[]] && s.sessions == map[]
  {
    var a := BothFinishing();
    var counted, n, m := BothCount(a);
    var f, g := BothCommit(a, counted[|counted| - 1], n, m);
    path := counted + [f, g];
  }

  lemma BothCommit(a: State, e: State, n: nat, m: nat) returns (f: State, g: State)
    requires TwoFinishers(a) && n != 0 && m != 0
    requires e == a.(sessions := a.sessions[2 := a.sessions[2].(stage := Counted(n))][3 := a.sessions[3].(stage := Counted(m))])
    ensures UnlockedStep(e, f) && UnlockedStep(f, g)
    ensures |g.runs| == 1 && Hung(g, 0) && g.runs[0].status.Running? && 0 !in g.overridden && g.fired == [[]]
    ensures g.sessions == map[]
  {
    f := ExecUnlocked(e, 2, 0);
    Committed(e, 2);
    g := ExecUnlocked(f, 3, 0);
    Committed(f, 3);
    assert g.sessions.Keys == {};
  }
}
