/**
 The inductive invariant of the store and its preservation by every statement,
 for any number of runs, shards and concurrent calls.
 */
module Barrier {
  import opened Wrappers
  import opened Tables
  import opened Aggregation
  import opened Database
  import opened Lifecycle

  // ---- The invariant ----

  /** The lock tables list exactly the rows that finishing calls hold. */
  ghost predicate LocksOk(s: State) {
    && (forall sh :: sh in s.shardLock ==> ShardHeld(s, sh, s.shardLock[sh]))
    && (forall r :: r in s.runLock ==> RunHeld(s, r, s.runLock[r]))
    && (forall x :: x in s.sessions && s.sessions[x].Finishing? ==> Holds(s, x, s.sessions[x]))
  }

  ghost predicate ShardHeld(s: State, sh: nat, x: nat) {
    x in s.sessions && s.sessions[x].Finishing? && s.sessions[x].shard == sh
  }

  ghost predicate RunHeld(s: State, r: nat, x: nat) {
    x in s.sessions && s.sessions[x].Finishing? && s.sessions[x].run == r && !s.sessions[x].stage.Updated?
  }

  ghost predicate Holds(s: State, x: nat, f: Session)
    requires f.Finishing?
  {
    && f.shard in s.shardLock && s.shardLock[f.shard] == x
    && (!f.stage.Updated? ==> f.run in s.runLock && s.runLock[f.run] == x)
  }

  /** What a finishing transaction has read is still true of what it would read now. */
  ghost predicate StageOk(f: Session, visible: seq<ShardRow>, run: RunRow)
    requires f.Finishing?
  {
    var rows := RowsOf(visible, f.run);
    match f.stage
    case Updated => true
    case Locked => true
    case Counted(remaining) => remaining == 0 <==> AllTerminal(visible, f.run)
    case Summed(t) => AllTerminal(visible, f.run) && t == SumRows(rows)
    case Merged(t, p) => AllTerminal(visible, f.run) && t == SumRows(rows) && p == RunPercentilesOf(rows)
    case Seen(t, p, c) =>
      AllTerminal(visible, f.run) && t == SumRows(rows) && p == RunPercentilesOf(rows) && c == run.status
    case Applied(c, write) =>
      && AllTerminal(visible, f.run) && c == run.status
      && (write.Some? <==> BarrierGuard(c))
      && (write.Some? ==>
            (write.value.completedAt.Some?
             && write.value == FinalRow(run, SumRows(rows), RunPercentilesOf(rows), c, write.value.completedAt.value)))
  }

  ghost predicate FinishingOk(s: State, f: Session)
    requires f.Finishing?
  {
    && f.call.Finishes() && f.call.shard == f.shard && f.shard < |s.shards| && f.run < |s.runs|
    && s.shards[f.shard].runId == f.run
    && ShardGuard(s.shards[f.shard].status, f.call)
    && f.row.completedAt.Some? && f.row == FinishedRow(s.shards[f.shard], f.call, f.row.completedAt.value)
    && StageOk(f, Visible(s.shards, f), s.runs[f.run])
  }

  ghost predicate MarkingOk(s: State, f: Session)
    requires f.Marking?
  {
    && f.call.Starts() && f.call.shard == f.shard && f.shard < |s.shards| && f.run < |s.runs|
    && s.shards[f.shard].runId == f.run
    && !s.shards[f.shard].status.ShardQueued?
  }

  ghost predicate SessionOk(s: State, sid: nat)
    requires sid in s.sessions
  {
    match s.sessions[sid]
    case Waiting(_) => sid !in s.replies
    case Marking(_, _, _) => sid !in s.replies && MarkingOk(s, s.sessions[sid])
    case Finishing(_, _, _, _, _) => sid !in s.replies && FinishingOk(s, s.sessions[sid])
  }

  /** What the barrier wrote for a run: the aggregate of its shard rows and the matching status. */
  ghost predicate Finalised(row: RunRow, rows: seq<ShardRow>, seen: RunStatus) {
    && row.status == StatusFrom(SumRows(rows), seen)
    && row.error == ErrorFrom(SumRows(rows), seen)
    && row.columns == ColumnsOf(rows)
  }

  ghost predicate RunOk(s: State, r: nat)
    requires r < |s.runs| && r < |s.fired|
  {
    var row, f := s.runs[r], s.fired[r];
    && (row.completedAt.Some? <==> row.status.Terminal())
    && |f| == (if AllTerminal(s.shards, r) then 1 else 0)
    && (r in s.overridden ==> (row.status.Completed? || row.status.Failed?) && (f != [] ==> !BarrierGuard(f[0].seen)))
    && (r !in s.overridden ==>
          && (f == [] ==> !row.status.Terminal())
          && (f != [] ==> !f[0].seen.Terminal())
          && (f != [] && f[0].seen.Queued? ==> !row.status.Terminal())
          && (f != [] && BarrierGuard(f[0].seen) ==> Finalised(row, RowsOf(s.shards, r), f[0].seen)))
  }

  ghost predicate StarterOk(s: State, sh: nat)
    requires sh in s.starter
  {
    var sid := s.starter[sh];
    || (sid in s.sessions && s.sessions[sid].Marking? && s.sessions[sid].shard == sh)
    || (sid in s.replies && s.replies[sid].call.Starts() && s.replies[sid].call.shard == sh
        && (s.replies[sid].reply.Ok? || s.replies[sid].reply.DbError?))
  }

  /** The call that finished the shard has been answered. */
  ghost predicate WinnerOk(s: State, sh: nat, sid: nat) {
    sid in s.replies && s.replies[sid].call.Finishes() && s.replies[sid].call.shard == sh && s.replies[sid].reply.Ok?
  }

  ghost predicate ShardOk(s: State, sh: nat)
    requires sh < |s.shards|
  {
    var row := s.shards[sh];
    && row.runId < |s.runs|
    && (row.completedAt.Some? <==> row.status.Terminal())
    && (row.status.Terminal() <==> sh in s.winner)
    && (sh in s.winner ==> WinnerOk(s, sh, s.winner[sh]))
    && (row.status.ShardRunning? ==> sh in s.starter && StarterOk(s, sh))
  }

  /** An assignment for the shard is out: the shard and its run have left their queued states. */
  ghost predicate HandedOut(s: State, sh: nat) {
    && sh < |s.shards| && !s.shards[sh].status.ShardQueued?
    && s.shards[sh].runId < |s.runs| && !s.runs[s.shards[sh].runId].status.Queued?
  }

  /** What an answered call may rely on from then on. */
  ghost predicate ReplyOk(s: State, sid: nat)
    requires sid in s.replies
  {
    var call, reply := s.replies[sid].call, s.replies[sid].reply;
    match call
    case StartShard(sh) =>
      && (reply.Ok? ==> HandedOut(s, sh))
      && (reply.NotQueued? ==> sh < |s.shards| && !s.shards[sh].status.ShardQueued?)
    case TakeOverShard(sh) =>
      && (reply.Ok? ==> HandedOut(s, sh))
      && (reply.AlreadyDone? ==> sh < |s.shards| && s.shards[sh].status.Terminal())
    case CompleteShard(sh, report) =>
      reply.Ok? ==>
        (sh < |s.shards| && sh in s.winner && s.winner[sh] == sid
         && s.shards[sh].status == report.Status() && s.shards[sh].partial == report.partial
         && s.shards[sh].error == TextOf(report.error))
    case FailShard(sh, reason) =>
      && (reply.Ok? ==>
            (sh < |s.shards| && sh in s.winner && s.winner[sh] == sid && s.shards[sh].status.ShardFailed?
             && s.shards[sh].error == Some(Text(reason))))
      && (reply.NoOp? ==> sh < |s.shards| && s.shards[sh].status.Terminal())
    case CancelRun(r) =>
      reply.Ok? || reply.NoOp? ==> r < |s.runs| && Cancelling.Rank() <= s.runs[r].status.Rank()
    case _ => true
  }

  ghost predicate SessionsOk(s: State) {
    forall sid :: sid in s.sessions ==> SessionOk(s, sid)
  }

  ghost predicate RunsOk(s: State) {
    && |s.fired| == |s.runs|
    && (forall r :: 0 <= r < |s.runs| ==> RunOk(s, r))
    && (forall r :: r in s.overridden ==> r < |s.runs|)
  }

  ghost predicate ShardsOk(s: State) {
    && (forall sh :: 0 <= sh < |s.shards| ==> ShardOk(s, sh))
    && (forall sh :: sh in s.winner ==> sh < |s.shards|)
  }

  ghost predicate RepliesOk(s: State) {
    forall sid :: sid in s.replies ==> ReplyOk(s, sid)
  }

  ghost predicate Inv(s: State) {
    LocksOk(s) && SessionsOk(s) && RunsOk(s) && ShardsOk(s) && RepliesOk(s)
  }

  lemma InitInv(cap: int)
    ensures Inv(Init(cap))
  {
  }

  lemma InvRooted(s: State)
    requires SessionsOk(s) && RunsOk(s)
    ensures Rooted(s)
  {
  }

  // ---- Frames ----

  lemma ReplyStable(s: State, t: State, sid: nat)
    requires sid in s.replies && ReplyOk(s, sid) && Later(s, t)
    ensures sid in t.replies && ReplyOk(t, sid)
  {
    var call := s.replies[sid].call;
    if call.OnShard() && call.shard < |s.shards| {
      assert ShardLater(s.shards[call.shard], t.shards[call.shard]);
      var r := s.shards[call.shard].runId;
      if r < |s.runs| {
        assert RunLater(s.runs[r], t.runs[r]);
      }
    } else if call.CancelRun? && call.run < |s.runs| {
      assert RunLater(s.runs[call.run], t.runs[call.run]);
    }
  }

  /** The step from s to t leaves alone what the finishing call f holds and has read. */
  ghost predicate Spares(s: State, t: State, f: Session)
    requires f.Finishing?
  {
    f.shard < |s.shards| && f.run < |s.runs| ==>
      (&& f.shard < |t.shards| && t.shards[f.shard] == s.shards[f.shard]
       && f.run < |t.runs| && (!f.stage.Updated? ==> t.runs[f.run] == s.runs[f.run])
       && (!f.stage.Updated? && !f.stage.Locked? ==> Alike(s.shards, t.shards, f.run)))
  }

  lemma FinishingStable(s: State, t: State, f: Session)
    requires f.Finishing? && FinishingOk(s, f) && Spares(s, t, f)
    ensures FinishingOk(t, f)
  {
    if !f.stage.Updated? && !f.stage.Locked? {
      assert Alike(Visible(s.shards, f), Visible(t.shards, f), f.run);
      AlikeRows(Visible(s.shards, f), Visible(t.shards, f), f.run);
    }
  }

  /** Everything about the calls other than sid carries over. */
  ghost predicate OthersKept(s: State, t: State, sid: nat) {
    && (forall x :: x in s.sessions && x != sid ==> x in t.sessions && t.sessions[x] == s.sessions[x])
    && (forall x :: x in t.sessions && x != sid ==> x in s.sessions)
    && (forall x :: x in s.replies ==> x in t.replies && t.replies[x] == s.replies[x])
    && (forall x :: x in t.replies && x != sid ==> x in s.replies)
  }

  ghost predicate SparesOthers(s: State, t: State, sid: nat) {
    forall x :: x in s.sessions && x != sid && s.sessions[x].Finishing? ==> Spares(s, t, s.sessions[x])
  }

  lemma KeepSessions(s: State, t: State, sid: nat)
    requires SessionsOk(s) && OthersKept(s, t, sid) && Later(s, t) && SparesOthers(s, t, sid)
    requires sid in t.sessions ==> SessionOk(t, sid)
    ensures SessionsOk(t)
  {
    forall x | x in t.sessions && x != sid
      ensures SessionOk(t, x)
    {
      assert SessionOk(s, x);
      var f := s.sessions[x];
      match f
      case Waiting(_) =>
      case Marking(_, sh, _) =>
        assert ShardLater(s.shards[sh], t.shards[sh]);
      case Finishing(_, _, _, _, _) =>
        FinishingStable(s, t, f);
    }
  }

  /** The row, the firings and the shards of run r as far as RunOk depends on them. */
  ghost predicate RunKept(s: State, t: State, r: nat)
    requires r < |s.runs| && r < |t.runs| && r < |s.fired| && r < |t.fired|
  {
    && t.runs[r] == s.runs[r] && t.fired[r] == s.fired[r] && (r in t.overridden <==> r in s.overridden)
    && Alike(s.shards, t.shards, r)
  }

  lemma KeepRuns(s: State, t: State)
    requires RunsOk(s) && |t.fired| == |t.runs| && |s.runs| <= |t.runs|
    requires forall r :: r in t.overridden ==> r < |t.runs|
    requires forall r :: 0 <= r < |t.runs| ==> (r < |s.runs| && RunKept(s, t, r)) || RunOk(t, r)
    ensures RunsOk(t)
  {
    forall r | 0 <= r < |t.runs|
      ensures RunOk(t, r)
    {
      if r < |s.runs| && RunKept(s, t, r) {
        assert RunOk(s, r);
        AlikeRows(s.shards, t.shards, r);
      }
    }
  }

  /** Shard row sh and its history entries are as before. */
  ghost predicate ShardKept(s: State, t: State, sh: nat) {
    && sh < |s.shards| && sh < |t.shards| && t.shards[sh] == s.shards[sh]
    && (sh in t.winner <==> sh in s.winner)
    && (sh in s.winner ==> t.winner[sh] == s.winner[sh])
    && (sh in s.starter ==> sh in t.starter && t.starter[sh] == s.starter[sh])
  }

  /** If sid was about to mark its run, its outcome is one StarterOk accepts. */
  ghost predicate StarterAnswered(s: State, t: State, sid: nat) {
    sid in s.sessions && s.sessions[sid].Marking? ==>
      (sid in t.replies && t.replies[sid].call == s.sessions[sid].call
       && (t.replies[sid].reply.Ok? || t.replies[sid].reply.DbError?))
  }

  lemma KeepShards(s: State, t: State, sid: nat)
    requires ShardsOk(s) && OthersKept(s, t, sid) && StarterAnswered(s, t, sid) && |s.runs| <= |t.runs|
    requires sid in s.sessions ==> SessionOk(s, sid)
    requires forall sh :: 0 <= sh < |t.shards| ==> ShardKept(s, t, sh) || ShardOk(t, sh)
    requires forall sh :: sh in t.winner ==> sh < |t.shards|
    ensures ShardsOk(t)
  {
    forall sh | 0 <= sh < |t.shards|
      ensures ShardOk(t, sh)
    {
      if ShardKept(s, t, sh) {
        assert ShardOk(s, sh);
      }
    }
  }

  lemma KeepReplies(s: State, t: State, sid: nat)
    requires RepliesOk(s) && Later(s, t) && OthersKept(s, t, sid)
    requires sid in t.replies ==> ReplyOk(t, sid)
    ensures RepliesOk(t)
  {
    forall x | x in t.replies && x != sid
      ensures ReplyOk(t, x)
    {
      ReplyStable(s, t, x);
    }
  }

  // ---- Preservation, statement by statement ----

  /** A step that touches no table. */
  lemma TablesUntouched(s: State, t: State, sid: nat)
    requires SessionsOk(s) && RunsOk(s) && ShardsOk(s) && RepliesOk(s)
    requires OthersKept(s, t, sid) && StarterAnswered(s, t, sid) && s.peak <= t.peak
    requires t == s.(sessions := t.sessions, replies := t.replies, shardLock := t.shardLock, runLock := t.runLock,
                     admitted := t.admitted, peak := t.peak)
    requires sid in t.sessions ==> SessionOk(t, sid)
    requires sid in t.replies ==> ReplyOk(t, sid)
    ensures SessionsOk(t) && RunsOk(t) && ShardsOk(t) && RepliesOk(t) && Later(s, t)
  {
    LaterSameTables(s, t);
    KeepSessions(s, t, sid);
    KeepRuns(s, t);
    KeepShards(s, t, sid);
    KeepReplies(s, t, sid);
  }

  lemma LaterSameTables(s: State, t: State)
    requires s.peak <= t.peak
    requires forall x :: x in s.replies ==> x in t.replies && t.replies[x] == s.replies[x]
    requires t == s.(sessions := t.sessions, replies := t.replies, shardLock := t.shardLock, runLock := t.runLock,
                     admitted := t.admitted, peak := t.peak)
    ensures Later(s, t)
  {
  }
}
