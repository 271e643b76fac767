/** Building blocks for concrete behaviours of the composed system. */
module Scenarios {
  import opened Tables
  import opened Database
  import opened Dispatch
  import opened Conditions
  import opened Witnesses

  /** Every assumption met. */
  const ALL := Rules(true, true, true, true)

  /** One more event of a behaviour. */
  lemma Do(r: Rules, cfg: Config, y: System, e: Event) returns (z: System)
    requires Reaches(r, Start(cfg, 0), y) && Can(y, e) && Obeys(r, y, e)
    ensures Reaches(r, Start(cfg, 0), z) && z == After(y, e)
  {
    ReachesOn(r, Start(cfg, 0), y, e);
    z := After(y, e);
  }

  /** The store has one queued run of one queued shard, and no call has been made. */
  ghost predicate NewRun(s: State) {
    && |s.runs| == 1 && s.runs[0].status.Queued?
    && |s.shards| == 1 && s.shards[0].runId == 0 && s.shards[0].status.ShardQueued?
    && s.fired == [[]] && s.sessions == map[] && s.replies == map[] && s.shardLock == map[] && s.runLock == map[]
  }

  /** One published message, and workers 0 and 1 waiting. */
  ghost predicate Prepared(r: Rules, cfg: Config, y: System) {
    && Reaches(r, Start(cfg, 0), y) && y.cfg == cfg && NewRun(y.db)
    && y.published == {0} && y.undelivered == {0} && y.pending == map[] && y.handled == map[]
    && y.workers == map[0 := Looping([]), 1 := Looping([])]
  }

  lemma CreateStoreRun(r: Rules, cfg: Config) returns (y: System)
    ensures Reaches(r, Start(cfg, 0), y) && y == Start(cfg, 0).(db := y.db) && NewRun(y.db)
  {
    OneOne();
    ReachesSelf(r, Start(cfg, 0));
    y := Do(r, cfg, Start(cfg, 0), Store(Admit));
    assert y == Start(cfg, 0).(db := Init(0).(admitted := 1, peak := 1));
    y := Do(r, cfg, y, Store(Create(1, [1])));
  }

  lemma Prepare(r: Rules, cfg: Config) returns (y: System)
    ensures Prepared(r, cfg, y)
  {
    y := CreateStoreRun(r, cfg);
    y := Do(r, cfg, y, Publish(0));
    y := Do(r, cfg, y, Join(0));
    y := Do(r, cfg, y, Join(1));
  }

  // ---- Letting time pass ----

  function Delayed(wk: Worker, n: nat): Worker {
    match wk
    case Starting(m, reclaimed, sid, clock, rest) => Starting(m, reclaimed, sid, clock + n, rest)
    case Executing(m, clock, rest) => Executing(m, clock + n, rest)
    case Reporting(m, sid, clock, rest) => Reporting(m, sid, clock + n, rest)
    case Acking(m, clock, rest) => Acking(m, clock + n, rest)
    case _ => wk
  }

  predicate CanWait(cfg: Config, wk: Worker, n: nat) {
    wk.Looping? || wk.Failing? || wk.Discarding? || n <= Urgency(cfg, wk)
  }

  function Waited(y: System, n: nat): System {
    y.(pending := map m | m in y.pending :: y.pending[m].(idle := y.pending[m].idle + n),
       workers := map w | w in y.workers :: Delayed(y.workers[w], n))
  }

  ghost predicate AllCanWait(y: System, n: nat) {
    forall w :: w in y.workers ==> CanWait(y.cfg, y.workers[w], n)
  }

  lemma PassTick(r: Rules, cfg: Config, y: System, n: nat) returns (z: System)
    requires Reaches(r, Start(cfg, 0), y) && (r.timely ==> AllCanWait(y, n + 1))
    ensures Reaches(r, Start(cfg, 0), z) && z == Waited(y, 1)
  {
    assert AllCanWait(y, n + 1) ==> InTime(y);
    z := Do(r, cfg, y, Tick);
    OneTick(y);
  }

  /** n ticks pass, within every worker's deadline. */
  lemma {:induction false} Wait(r: Rules, cfg: Config, y: System, n: nat) returns (z: System)
    requires Reaches(r, Start(cfg, 0), y) && (r.timely ==> AllCanWait(y, n))
    ensures Reaches(r, Start(cfg, 0), z) && z == Waited(y, n)
    decreases n
  {
    if n == 0 {
      z := y;
      NoWait(y);
    } else {
      var t := PassTick(r, cfg, y, n - 1);
      z := Wait(r, cfg, t, n - 1);
      WaitedTwice(y, 1, n - 1);
    }
  }

  lemma NoWait(y: System)
    ensures Waited(y, 0) == y
  {
    assert y.pending == Waited(y, 0).pending && y.workers == Waited(y, 0).workers;
  }

  lemma OneTick(y: System)
    ensures After(y, Tick) == Waited(y, 1)
  {
    assert After(y, Tick).pending == Waited(y, 1).pending;
    assert After(y, Tick).workers == Waited(y, 1).workers;
  }

  lemma WaitedTwice(y: System, a: nat, b: nat)
    ensures Waited(Waited(y, a), b) == Waited(y, a + b)
  {
    assert Waited(Waited(y, a), b).pending == Waited(y, a + b).pending;
    assert Waited(Waited(y, a), b).workers == Waited(y, a + b).workers;
  }
}
