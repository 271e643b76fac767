/**
 The store as PostgreSQL executes it under READ COMMITTED: committed rows, row
 locks, and client calls that advance one SQL statement at a time, each statement
 seeing a fresh snapshot plus its own transaction's writes
 (backend/internal/store/test_run_store.go).

 Ids are positions in the two tables; rows are never deleted.
 */
module Database {
  import opened Wrappers
  import opened Tables
  import opened Aggregation
  import opened Handlers

  /** One call of a store method. */
  datatype Call =
    | StartShard(shard: nat)
    | TakeOverShard(shard: nat)
    | CompleteShard(shard: nat, report: Report)
    | FailShard(shard: nat, reason: string)
    | ClaimNext
    | StartByID(run: nat)
    | TakeOver(run: nat)
    | FailRun(run: nat, reason: string)
    | CompleteRun(run: nat, report: Report)
    | CancelRun(run: nat)
  {
    predicate OnShard() { StartShard? || TakeOverShard? || CompleteShard? || FailShard? }
    predicate Starts() { StartShard? || TakeOverShard? }
    predicate Finishes() { CompleteShard? || FailShard? }
  }

  /** Progress of a finishShard transaction after its first UPDATE. */
  datatype Stage =
    | Updated
    | Locked
    | Counted(remaining: nat)
    | Summed(totals: Totals)
    | Merged(totals: Totals, pcts: Percentiles)
    | Seen(totals: Totals, pcts: Percentiles, current: RunStatus)
    | Applied(current: RunStatus, write: Option<RunRow>)

  /** Where a call stands between two statements, with its uncommitted writes. */
  datatype Session =
    | Waiting(call: Call)
    | Marking(call: Call, shard: nat, run: nat)
    | Finishing(call: Call, shard: nat, run: nat, row: ShardRow, stage: Stage)

  datatype Reply = Ok | NoOp | NotFound | NotQueued | AlreadyDone | NotRunning | QueueEmpty | DbError

  datatype Outcome = Outcome(call: Call, reply: Reply)

  /** A committed barrier firing: the run status it read, and the call that fired it. */
  datatype Firing = Firing(seen: RunStatus, call: Call)

  /**
   The fields from `replies` on are history: they record what happened and
   influence nothing, except that `admitted` counts the creators between the
   capacity check and the insert.
   */
  datatype State = State(
    cap: int,
    runs: seq<RunRow>,
    shards: seq<ShardRow>,
    sessions: map<nat, Session>,
    shardLock: map<nat, nat>,
    runLock: map<nat, nat>,
    replies: map<nat, Outcome>,
    fired: seq<seq<Firing>>,
    winner: map<nat, nat>,
    starter: map<nat, nat>,
    overridden: set<nat>,
    admitted: nat,
    peak: nat)

  datatype Action =
    | Admit
    | Create(virtualUsers: int, parts: seq<int>)
    | CreateFails
    | Open(sid: nat, call: Call)
    | Exec(sid: nat, now: int)
    | Abort(sid: nat)

  function Init(cap: int): State {
    State(cap, [], [], map[], map[], map[], map[], [], map[], map[], {}, 0, 0)
  }

  // ---- Queries ----

  function RowsOf(shards: seq<ShardRow>, run: nat): seq<ShardRow> {
    if shards == [] then []
    else
      var init, last := RowsOf(shards[..|shards| - 1], run), shards[|shards| - 1];
      if last.runId == run then init + [last] else init
  }

  function Outstanding(shards: seq<ShardRow>, run: nat): nat {
    if shards == [] then 0
    else
      var last := shards[|shards| - 1];
      Outstanding(shards[..|shards| - 1], run) + if last.runId == run && !last.status.Terminal() then 1 else 0
  }

  function CountActive(runs: seq<RunRow>): nat {
    if runs == [] then 0
    else CountActive(runs[..|runs| - 1]) + if runs[|runs| - 1].status.Terminal() then 0 else 1
  }

  /** The oldest queued run whose row is not locked (FOR UPDATE SKIP LOCKED), or |runs|. */
  function OldestQueued(runs: seq<RunRow>, locked: map<nat, nat>, i: nat): (r: nat)
    requires i <= |runs|
    ensures i <= r <= |runs|
    ensures r < |runs| ==> runs[r].status.Queued? && r !in locked
    ensures forall j :: i <= j < r ==> !runs[j].status.Queued? || j in locked
    decreases |runs| - i
  {
    if i == |runs| || (runs[i].status.Queued? && i !in locked) then i else OldestQueued(runs, locked, i + 1)
  }

  // ---- Guards and row updates ----

  predicate ShardGuard(status: ShardStatus, call: Call) {
    match call
    case StartShard(_) => status.ShardQueued?
    case TakeOverShard(_) => status.ShardQueued? || status.ShardRunning?
    case CompleteShard(_, _) => status.ShardRunning?
    case FailShard(_, _) => status.ShardQueued? || status.ShardRunning?
    case _ => false
  }

  function ShardMiss(call: Call): Reply {
    match call
    case StartShard(_) => NotQueued
    case TakeOverShard(_) => AlreadyDone
    case CompleteShard(_, _) => NotRunning
    case _ => NoOp
  }

  function FinishedRow(row: ShardRow, call: Call, now: int): ShardRow
    requires call.Finishes()
  {
    match call
    case CompleteShard(_, report) =>
      row.(status := report.Status(), error := TextOf(report.error), partial := report.partial, completedAt := Some(now))
    case FailShard(_, reason) =>
      row.(status := ShardFailed, error := Some(Text(reason)), completedAt := Some(now))
  }

  predicate RunGuard(status: RunStatus, call: Call) {
    match call
    case StartByID(_) => status.Queued?
    case TakeOver(_) => status.Queued? || status.Running?
    case FailRun(_, _) => status.Queued? || status.Running?
    case CompleteRun(_, _) => status.Running?
    case CancelRun(_) => status.Queued? || status.Running?
    case _ => false
  }

  function RunMiss(call: Call): Reply {
    match call
    case StartByID(_) => NotQueued
    case TakeOver(_) => AlreadyDone
    case CompleteRun(_, _) => NotRunning
    case _ => NoOp
  }

  function Started(row: RunRow, now: int): RunRow {
    row.(status := Running, startedAt := Some(now))
  }

  function UpdatedRun(row: RunRow, call: Call, now: int): RunRow {
    match call
    case FailRun(_, reason) => row.(status := Failed, error := Some(Text(reason)), completedAt := Some(now))
    case CompleteRun(_, report) =>
      var p := report.partial;
      row.(status := if report.completed then Completed else Failed,
           error := TextOf(report.error), completedAt := Some(now),
           columns := row.columns.(total := p.total, success := p.success, failed := p.failed,
                                   avgMs := p.avgMs, minMs := p.minMs, maxMs := p.maxMs))
    case CancelRun(_) => row.(status := Cancelling)
    case _ => Started(row, now)
  }

  predicate BarrierGuard(status: RunStatus) { status.Running? || status.Cancelling? }

  function FinalRow(row: RunRow, t: Totals, p: Percentiles, current: RunStatus, now: int): RunRow {
    row.(status := StatusFrom(t, current), error := ErrorFrom(t, current),
         columns := ColumnsFrom(t, p), completedAt := Some(now))
  }

  // ---- One statement ----

  /** Every reference held by a call in progress points at an existing row. */
  ghost predicate Rooted(s: State) {
    && |s.fired| == |s.runs|
    && (forall sid :: sid in s.sessions && !s.sessions[sid].Waiting? ==>
          s.sessions[sid].shard < |s.shards| && s.sessions[sid].run < |s.runs|)
  }

  function Answer(s: State, sid: nat, reply: Reply): State
    requires sid in s.sessions
  {
    s.(sessions := s.sessions - {sid}, replies := s.replies[sid := Outcome(s.sessions[sid].call, reply)])
  }

  function ExecShardCall(s: State, sid: nat, now: int): State
    requires sid in s.sessions && s.sessions[sid].call.OnShard()
  {
    var call := s.sessions[sid].call;
    var sh := call.shard;
    if |s.shards| <= sh then Answer(s, sid, NotFound)
    else if !ShardGuard(s.shards[sh].status, call) then Answer(s, sid, ShardMiss(call))
    else
      var row := s.shards[sh];
      if call.Starts() then
        s.(shards := s.shards[sh := row.(status := ShardRunning, startedAt := Some(now))],
           sessions := s.sessions[sid := Marking(call, sh, row.runId)],
           starter := s.starter[sh := sid])
      else
        s.(sessions := s.sessions[sid := Finishing(call, sh, row.runId, FinishedRow(row, call, now), Updated)],
           shardLock := s.shardLock[sh := sid])
  }

  /** The second statement of startShard. */
  function ExecMark(s: State, sid: nat, now: int): State
    requires sid in s.sessions && s.sessions[sid].Marking? && s.sessions[sid].run < |s.runs|
  {
    var r := s.sessions[sid].run;
    var runs := if s.runs[r].status.Queued? then s.runs[r := Started(s.runs[r], now)] else s.runs;
    Answer(s.(runs := runs), sid, Ok)
  }

  /** A run-level method: a single autocommitted UPDATE. */
  function ExecRunCall(s: State, sid: nat, now: int): State
    requires sid in s.sessions && !s.sessions[sid].call.OnShard()
  {
    var call := s.sessions[sid].call;
    if call.ClaimNext? then
      var r := OldestQueued(s.runs, s.runLock, 0);
      if r == |s.runs| then Answer(s, sid, QueueEmpty)
      else Answer(s.(runs := s.runs[r := Started(s.runs[r], now)]), sid, Ok)
    else
      var r := call.run;
      if |s.runs| <= r then Answer(s, sid, NotFound)
      else if !RunGuard(s.runs[r].status, call) then Answer(s, sid, RunMiss(call))
      else
        Answer(s.(runs := s.runs[r := UpdatedRun(s.runs[r], call, now)],
                  overridden := if call.FailRun? || call.CompleteRun? then s.overridden + {r} else s.overridden),
               sid, Ok)
  }

  /** The shard rows a finishing transaction sees: the committed ones and its own write. */
  function Visible(shards: seq<ShardRow>, f: Session): seq<ShardRow>
    requires f.Finishing? && f.shard < |shards|
  {
    shards[f.shard := f.row]
  }

  function Released(s: State, sid: nat): State
    requires sid in s.sessions
  {
    var f := s.sessions[sid];
    if f.Finishing? then
      s.(shardLock := s.shardLock - {f.shard},
         runLock := if f.run in s.runLock && s.runLock[f.run] == sid then s.runLock - {f.run} else s.runLock)
    else s
  }

  function Commit(s: State, sid: nat): State
    requires Rooted(s) && sid in s.sessions && s.sessions[sid].Finishing?
  {
    var f := s.sessions[sid];
    var sh := f.shard;
    var t := Released(s, sid).(shards := s.shards[sh := f.row], winner := s.winner[sh := sid]);
    var u := if f.stage.Applied? then
        t.(runs := if f.stage.write.Some? then s.runs[f.run := f.stage.write.value] else s.runs,
           fired := s.fired[f.run := s.fired[f.run] + [Firing(f.stage.current, f.call)]])
      else t;
    Answer(u, sid, Ok)
  }

  function AtStage(s: State, sid: nat, stage: Stage): State
    requires sid in s.sessions && s.sessions[sid].Finishing?
  {
    s.(sessions := s.sessions[sid := s.sessions[sid].(stage := stage)])
  }

  /** What the next statement of a finishing transaction leaves it knowing. */
  function NextStage(f: Session, visible: seq<ShardRow>, row: RunRow, now: int): Stage
    requires f.Finishing?
  {
    match f.stage
    case Updated => Locked
    case Locked => Counted(Outstanding(visible, f.run))
    case Counted(_) => Summed(SumRows(RowsOf(visible, f.run)))
    case Summed(t) => Merged(t, RunPercentilesOf(RowsOf(visible, f.run)))
    case Merged(t, p) => Seen(t, p, row.status)
    case Seen(t, p, c) => Applied(c, if BarrierGuard(row.status) then Some(FinalRow(row, t, p, c, now)) else None)
    case Applied(_, _) => f.stage
  }

  /** Nothing is left to read: shards are outstanding, or the run row has been written. */
  predicate AtCommit(f: Session) {
    f.Finishing? && (f.stage.Applied? || (f.stage.Counted? && f.stage.remaining != 0))
  }

  /** The statements after the first: lock, count, aggregate queries, run UPDATE, commit. */
  function ExecFinish(s: State, sid: nat, now: int): State
    requires Rooted(s) && sid in s.sessions && s.sessions[sid].Finishing?
  {
    var f := s.sessions[sid];
    if AtCommit(f) then Commit(s, sid)
    else
      var t := AtStage(s, sid, NextStage(f, Visible(s.shards, f), s.runs[f.run], now));
      if f.stage.Updated? || (f.stage.Seen? && BarrierGuard(s.runs[f.run].status)) then
        t.(runLock := s.runLock[f.run := sid])
      else t
  }

  /** A statement runs unless the row it must update or lock is locked by another transaction. */
  predicate CanExec(s: State, sid: nat)
    requires sid in s.sessions
  {
    match s.sessions[sid]
    case Waiting(call) =>
      if call.OnShard() then
        call.shard < |s.shards| && ShardGuard(s.shards[call.shard].status, call) ==> call.shard !in s.shardLock
      else
        !call.ClaimNext? && call.run < |s.runs| && RunGuard(s.runs[call.run].status, call) ==> call.run !in s.runLock
    case Marking(_, _, run) =>
      run < |s.runs| && s.runs[run].status.Queued? ==> run !in s.runLock
    case Finishing(_, _, run, _, stage) =>
      && (stage.Updated? ==> run !in s.runLock)
      && (stage.Seen? && run < |s.runs| && BarrierGuard(s.runs[run].status) ==>
            run !in s.runLock || s.runLock[run] == sid)
  }

  function ExecStatement(s: State, sid: nat, now: int): State
    requires Rooted(s) && sid in s.sessions
  {
    match s.sessions[sid]
    case Waiting(call) => if call.OnShard() then ExecShardCall(s, sid, now) else ExecRunCall(s, sid, now)
    case Marking(_, _, _) => ExecMark(s, sid, now)
    case Finishing(_, _, _, _, _) => ExecFinish(s, sid, now)
  }

  // ---- Actions ----

  ghost predicate Enabled(s: State, a: Action) {
    Rooted(s) &&
    match a
    case Admit => s.cap > 0 ==> CountActive(s.runs) < s.cap
    case Create(virtualUsers, parts) => 0 < s.admitted && parts != [] && EvenSplit(parts, virtualUsers)
    case CreateFails => 0 < s.admitted
    case Open(sid, _) => sid !in s.sessions && sid !in s.replies
    case Exec(sid, _) => sid in s.sessions && CanExec(s, sid)
    case Abort(sid) => sid in s.sessions
  }

  function NewShards(run: nat, parts: seq<int>): (rows: seq<ShardRow>)
    ensures |rows| == |parts|
  {
    seq(|parts|, i requires 0 <= i < |parts| =>
      ShardRow(run, i, parts[i], ShardQueued, None, NO_PARTIAL, None, None))
  }

  function Apply(s: State, a: Action): State
    requires Enabled(s, a)
  {
    match a
    case Admit => s.(admitted := s.admitted + 1, peak := if s.peak < s.admitted + 1 then s.admitted + 1 else s.peak)
    case Create(virtualUsers, parts) =>
      s.(runs := s.runs + [RunRow(virtualUsers, |parts|, Queued, None, NO_COLUMNS, None, None)],
         shards := s.shards + NewShards(|s.runs|, parts),
         fired := s.fired + [[]],
         admitted := s.admitted - 1)
    case CreateFails => s.(admitted := s.admitted - 1)
    case Open(sid, call) => s.(sessions := s.sessions[sid := Waiting(call)])
    case Exec(sid, now) => ExecStatement(s, sid, now)
    case Abort(sid) => Answer(Released(s, sid), sid, DbError)
  }

  // ---- Runs of the system ----

  ghost predicate Legal(s: State, actions: seq<Action>)
    decreases |actions|
  {
    actions == [] || (Enabled(s, actions[0]) && Legal(Apply(s, actions[0]), actions[1..]))
  }

  ghost function Run(s: State, actions: seq<Action>): State
    requires Legal(s, actions)
    decreases |actions|
  {
    if actions == [] then s else Run(Apply(s, actions[0]), actions[1..])
  }

  lemma {:induction false} RunAppend(s: State, a: seq<Action>, b: seq<Action>)
    requires Legal(s, a) && Legal(Run(s, a), b)
    ensures Legal(s, a + b) && Run(s, a + b) == Run(Run(s, a), b)
    decreases |a|
  {
    if a == [] {
      assert a + b == b;
    } else {
      RunAppend(Apply(s, a[0]), a[1..], b);
      assert (a + b)[0] == a[0] && (a + b)[1..] == a[1..] + b;
    }
  }
}
