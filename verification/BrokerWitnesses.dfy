/** Behaviours showing that each assumption about the broker protocol is needed. */
module BrokerWitnesses {
  import opened Wrappers
  import opened Tables
  import opened Database
  import opened Broker
  import opened Dispatch
  import opened Conditions
  import opened Lease
  import opened NoLostJob
  import opened Scenarios

  /** The message has been handed out c times to no effect; its shard is unstarted, the workers idle. */
  ghost predicate Tried(r: Rules, cfg: Config, y: System, c: nat) {
    && Reaches(r, Start(cfg, 0), y) && y.cfg == cfg && NewRun(y.db.(sessions := map[]))
    && (forall sid :: sid in y.db.sessions ==> sid < c)
    && y.published == {0} && y.undelivered == {} && y.handled == map[0 := c]
    && 0 in y.pending && y.pending.Keys == {0} && y.pending[0].count == c
    && y.workers == map[0 := Looping([]), 1 := Looping([])]
  }

  lemma FirstTry(r: Rules, cfg: Config) returns (y: System)
    ensures Tried(r, cfg, y, 1)
  {
    y := DeliverFirst(r, cfg);
    y := Do(r, cfg, y, GiveUp(0));
  }

  /** The reclaim threshold passes and idle worker 1 scans. */
  lemma ScanLate(r: Rules, cfg: Config, y: System, c: nat) returns (z: System)
    requires Reaches(r, Start(cfg, 0), y) && y.cfg == cfg && (r.timely ==> AllCanWait(y, cfg.minIdle))
    requires y.pending.Keys == {0} && y.pending[0].count == c && 1 in y.workers && y.workers[1] == Looping([])
    ensures Reaches(r, Start(cfg, 0), z) && Stuck(z, 0) && z.pending[0].count == c && z.pending.Keys == {0}
    ensures z == y.(pending := z.pending, workers := Waited(y, cfg.minIdle).workers[1 := Looping([Scanned(0, c)])])
  {
    z := Wait(r, cfg, y, cfg.minIdle);
    z := Do(r, cfg, z, Scan(1, [Scanned(0, c)]));
  }

  lemma ScanTried(r: Rules, cfg: Config, y: System, c: nat) returns (z: System)
    requires Tried(r, cfg, y, c)
    ensures Reaches(r, Start(cfg, 0), z) && Stuck(z, 0) && z.pending[0].count == c && z.pending.Keys == {0}
    ensures z == y.(pending := z.pending, workers := map[0 := Looping([]), 1 := Looping([Scanned(0, c)])])
  {
    z := ScanLate(r, cfg, y, c);
    assert z.workers == map[0 := Looping([]), 1 := Looping([Scanned(0, c)])];
  }

  /** A worker reclaims the message from its own scan and gives up on the call. */
  lemma ReclaimFrom(r: Rules, cfg: Config, y: System, w: nat, sid: nat, c: nat) returns (z: System)
    requires Reaches(r, Start(cfg, 0), y) && y.cfg == cfg
    requires w in y.workers && y.workers[w] == Looping([Scanned(0, c)]) && c <= cfg.maxDeliveries && Unused(y, sid)
    requires forall v :: v in y.workers ==> y.workers[v].Looping?
    requires 0 in y.pending && Stuck(y, 0) && 0 in y.handled && (r.current ==> y.pending[0].count == c)
    ensures Reaches(r, Start(cfg, 0), z)
    ensures z == y.(workers := y.workers[w := Looping([])],
                    pending := y.pending[0 := Entry(w, 0, y.pending[0].count + 1)],
                    handled := y.handled[0 := y.handled[0] + 1],
                    db := y.db.(sessions := y.db.sessions[sid := Waiting(TakeOverShard(0))]))
  {
    z := Do(r, cfg, y, Reclaim(w, sid));
    assert [Scanned(0, c)][1..] == [];
    z := Do(r, cfg, z, GiveUp(w));
  }

  lemma TryAgain(r: Rules, cfg: Config, y: System, c: nat) returns (z: System)
    requires Tried(r, cfg, y, c) && c <= cfg.maxDeliveries
    ensures Tried(r, cfg, z, c + 1)
  {
    z := ScanTried(r, cfg, y, c);
    z := ReclaimFrom(r, cfg, z, 1, c, c);
    assert z.workers == map[0 := Looping([]), 1 := Looping([])];
    assert z.db.(sessions := map[]) == y.db.(sessions := map[]);
  }

  /** Requests that are never answered use up deliveries. */
  lemma {:induction false} TryUpTo(r: Rules, cfg: Config, y: System, c: nat, limit: nat) returns (z: System)
    requires Tried(r, cfg, y, c) && c <= limit <= cfg.maxDeliveries + 1
    ensures Tried(r, cfg, z, limit)
    decreases limit - c
  {
    if c == limit {
      z := y;
    } else {
      z := TryAgain(r, cfg, y, c);
      z := TryUpTo(r, cfg, z, c + 1, limit);
    }
  }

  /**
   Whatever the configuration, and whatever else is assumed, acking a dead-lettered
   message without a confirmed FailShard can lose its job.
   */
  lemma BlindDeadLetterLoses(r: Rules, cfg: Config) returns (y: System)
    requires !r.confirmed
    ensures Reaches(r, Start(cfg, 0), y) && Lost(y, 0)
  {
    y := FirstTry(r, cfg);
    y := TryUpTo(r, cfg, y, 1, cfg.maxDeliveries + 1);
    y := ScanTried(r, cfg, y, cfg.maxDeliveries + 1);
    y := Do(r, cfg, y, DeadLetterBlind(1));
    y := Do(r, cfg, y, Ack(1));
  }

  // ---- A reclaim that overtakes the first start ----

  lemma DeliverFirst(r: Rules, cfg: Config) returns (y: System)
    ensures Reaches(r, Start(cfg, 0), y) && y.cfg == cfg && y.published == {0} && y.undelivered == {}
    ensures y.pending == map[0 := Entry(0, 0, 1)] && y.handled == map[0 := 1]
    ensures y.workers == map[0 := Starting(0, false, 0, 0, []), 1 := Looping([])]
    ensures y.db.sessions == map[0 := Waiting(StartShard(0))] && y.db.replies == map[]
    ensures NewRun(y.db.(sessions := map[]))
  {
    y := Prepare(r, cfg);
    y := Do(r, cfg, y, Deliver(0, 0, 0));
  }

  /** Worker 1's scan finds the first delivery stuck. */
  lemma ScanFirst(r: Rules, cfg: Config) returns (y: System)
    requires r.timely ==> cfg.minIdle <= cfg.startBound
    ensures Reaches(r, Start(cfg, 0), y) && y.cfg == cfg && y.published == {0} && y.undelivered == {}
    ensures y.workers == map[0 := Starting(0, false, 0, cfg.minIdle, []), 1 := Looping([Scanned(0, 1)])]
    ensures Stuck(y, 0) && y.pending.Keys == {0} && y.pending[0].count == 1
    ensures y.db.sessions == map[0 := Waiting(StartShard(0))] && y.db.replies == map[]
    ensures NewRun(y.db.(sessions := map[]))
  {
    y := DeliverFirst(r, cfg);
    FirstWaits(y, cfg.minIdle);
    y := ScanLate(r, cfg, y, 1);
  }

  /** Worker 1 takes the shard over while worker 0 still waits for its first start. */
  lemma Overtake(r: Rules, cfg: Config) returns (y: System)
    requires !r.patient && 1 <= cfg.maxDeliveries && (r.timely ==> cfg.minIdle <= cfg.startBound)
    ensures Reaches(r, Start(cfg, 0), y) && y.cfg == cfg && y.published == {0} && y.undelivered == {}
    ensures y.workers.Keys == {0, 1} && y.workers[0] == Starting(0, false, 0, cfg.minIdle, [])
    ensures y.pending.Keys == {0}
    ensures y.db.sessions == map[0 := Waiting(StartShard(0)), 1 := Waiting(TakeOverShard(0))] && y.db.replies == map[]
    ensures NewRun(y.db.(sessions := map[]))
  {
    var x := ScanFirst(r, cfg);
    y := Do(r, cfg, x, Reclaim(1, 1));
    assert y.db.(sessions := map[]) == x.db.(sessions := map[]);
  }

  lemma TakeOverShardRow(r: Rules, cfg: Config, y: System) returns (z: System)
    requires Reaches(r, Start(cfg, 0), y) && NewRun(y.db.(sessions := map[])) && y.db.replies == map[]
    requires y.db.sessions == map[0 := Waiting(StartShard(0)), 1 := Waiting(TakeOverShard(0))]
    ensures Reaches(r, Start(cfg, 0), z) && z == y.(db := z.db)
    ensures |z.db.shards| == 1 && z.db.shards[0].status.ShardRunning? && z.db.replies == map[]
    ensures |z.db.runs| == 1 && z.db.runs[0].status.Queued? && z.db.fired == [[]] && z.db.runLock == map[]
    ensures z.db.sessions == map[0 := Waiting(StartShard(0)), 1 := Marking(TakeOverShard(0), 0, 0)]
  {
    z := Do(r, cfg, y, Store(Exec(1, 0)));
  }

  /** The overtaken start finds the shard running and is refused. */
  lemma Refused(r: Rules, cfg: Config, y: System) returns (z: System)
    requires Reaches(r, Start(cfg, 0), y) && 0 in y.db.sessions && y.db.sessions[0] == Waiting(StartShard(0))
    requires |y.db.shards| == 1 && y.db.shards[0].status.ShardRunning? && Rooted(y.db)
    ensures Reaches(r, Start(cfg, 0), z) && z == y.(db := z.db) && z.db.shards == y.db.shards
    ensures 0 in z.db.replies && z.db.replies[0].reply.NotQueued?
  {
    z := Do(r, cfg, y, Store(Exec(0, 0)));
  }

  /** Its worker takes that for a duplicate and acks. */
  lemma AckRefused(r: Rules, cfg: Config, y: System, clock: nat) returns (z: System)
    requires Reaches(r, Start(cfg, 0), y) && 0 in y.workers && y.workers[0] == Starting(0, false, 0, clock, [])
    requires 0 in y.db.replies && y.db.replies[0].reply.NotQueued?
    ensures Reaches(r, Start(cfg, 0), z)
    ensures z == y.(pending := y.pending - {0}, workers := y.workers[0 := Looping([])])
  {
    z := Do(r, cfg, y, Answered(0));
    z := Do(r, cfg, z, Ack(0));
  }

  /**
   A reclaim before the first start is resolved can lose the job: the late start is
   refused and its worker acks, and then the worker that took over crashes. Nobody is
   left, the shard is running for ever, and no message will ever bring it back.
   */
  lemma ImpatientReclaimLoses(r: Rules, cfg: Config) returns (y: System)
    requires !r.patient && 1 <= cfg.maxDeliveries && (r.timely ==> cfg.minIdle <= cfg.startBound)
    ensures Reaches(r, Start(cfg, 0), y)
    ensures Lost(y, 0) && |y.db.shards| == 1 && y.db.shards[0].status.ShardRunning?
    ensures y.workers == map[0 := Looping([])]
  {
    y := Overtake(r, cfg);
    y := TakeOverShardRow(r, cfg, y);
    y := Refused(r, cfg, y);
    y := AckRefused(r, cfg, y, cfg.minIdle);
    y := Do(r, cfg, y, Crash(1));
    assert y.workers == map[0 := Looping([])];
  }

  // ---- A claim that acts on a stale scan ----

  /** Worker 0 has scanned too. */
  lemma BothScan(r: Rules, cfg: Config, y: System, c: nat) returns (z: System)
    requires Tried(r, cfg, y, c)
    ensures Reaches(r, Start(cfg, 0), z) && Stuck(z, 0) && z.pending[0].count == c && z.pending.Keys == {0}
    ensures z == y.(pending := z.pending, workers := map[0 := Looping([Scanned(0, c)]), 1 := Looping([Scanned(0, c)])])
  {
    z := ScanTried(r, cfg, y, c);
    z := Do(r, cfg, z, Scan(0, [Scanned(0, c)]));
    assert z.workers == map[0 := Looping([Scanned(0, c)]), 1 := Looping([Scanned(0, c)])];
  }

  /**
   A claim from a scan that another claim has made stale hands the message out once
   more than maxDeliveries + 1 times.
   */
  lemma StaleClaimOverruns(r: Rules, cfg: Config) returns (y: System)
    requires !r.current && 1 <= cfg.maxDeliveries
    ensures Reaches(r, Start(cfg, 0), y)
    ensures HandledCount(y, 0) == cfg.maxDeliveries + 2
  {
    var c := cfg.maxDeliveries;
    y := FirstTry(r, cfg);
    y := TryUpTo(r, cfg, y, 1, c);
    y := BothScan(r, cfg, y, c);
    y := ReclaimFrom(r, cfg, y, 0, c, c);
    y := Wait(r, cfg, y, cfg.minIdle);
    assert y.workers == map[0 := Looping([]), 1 := Looping([Scanned(0, c)])];
    y := ReclaimFrom(r, cfg, y, 1, c + 1, c);
  }

  // ---- A lease without slack ----

  /** Waiting with the first delivery in hand. */
  lemma FirstWaits(y: System, n: nat)
    requires y.pending == map[0 := Entry(0, 0, 1)]
    requires y.workers == map[0 := Starting(0, false, 0, 0, []), 1 := Looping([])]
    ensures Waited(y, n).pending == map[0 := Entry(0, n, 1)]
    ensures Waited(y, n).workers == map[0 := Starting(0, false, 0, n, []), 1 := Looping([])]
  {
  }

  lemma StartLate(r: Rules, cfg: Config) returns (y: System)
    ensures Reaches(r, Start(cfg, 0), y) && y.cfg == cfg && y.pending == map[0 := Entry(0, cfg.startBound, 1)]
    ensures y.workers == map[0 := Starting(0, false, 0, cfg.startBound, []), 1 := Looping([])]
    ensures y.db.sessions == map[0 := Waiting(StartShard(0))] && y.db.replies == map[]
    ensures NewRun(y.db.(sessions := map[]))
  {
    y := DeliverFirst(r, cfg);
    FirstWaits(y, cfg.startBound);
    y := Wait(r, cfg, y, cfg.startBound);
  }

  /** The first start is answered after waiting as long as it may, and execution begins. */
  lemma BeginLate(r: Rules, cfg: Config) returns (y: System)
    ensures Reaches(r, Start(cfg, 0), y) && y.cfg == cfg && y.pending == map[0 := Entry(0, cfg.startBound, 1)]
    ensures y.workers == map[0 := Executing(0, 0, []), 1 := Looping([])] && Unused(y, 1)
  {
    y := StartLate(r, cfg);
    y := FirstStartAnswered(r, cfg, y);
    y := Do(r, cfg, y, Answered(0));
  }

  lemma FirstStartAnswered(r: Rules, cfg: Config, y: System) returns (z: System)
    requires Reaches(r, Start(cfg, 0), y) && NewRun(y.db.(sessions := map[]))
    requires y.db.sessions == map[0 := Waiting(StartShard(0))] && y.db.replies == map[]
    ensures Reaches(r, Start(cfg, 0), z) && z == y.(db := z.db)
    ensures z.db.sessions == map[] && z.db.replies == map[0 := Outcome(StartShard(0), Ok)]
  {
    z := Do(r, cfg, y, Store(Exec(0, 0)));
    z := Do(r, cfg, z, Store(Exec(0, 0)));
  }

  /** Start, heartbeat and completion all take as long as they may. */
  lemma FinishLate(r: Rules, cfg: Config, y: System) returns (z: System)
    requires Reaches(r, Start(cfg, 0), y) && y.cfg == cfg && y.pending == map[0 := Entry(0, cfg.startBound, 1)]
    requires y.workers == map[0 := Executing(0, 0, []), 1 := Looping([])] && Unused(y, 1)
    ensures Reaches(r, Start(cfg, 0), z) && HandledBy(z, 0, 0) && z.cfg == cfg
    ensures 0 in z.pending && z.pending[0].idle == cfg.startBound + cfg.beatBound + cfg.finishBound
  {
    z := Wait(r, cfg, y, cfg.beatBound);
    z := Do(r, cfg, z, Finish(0, 1, Report(true, None, NO_PARTIAL)));
    z := Wait(r, cfg, z, cfg.finishBound);
  }

  /** Without timeliness or without slack, a message can come up for reclaim in its live handler's hands. */
  lemma LeaseRunsOut(r: Rules, cfg: Config) returns (y: System)
    requires !r.timely || !Slack(cfg)
    ensures Reaches(r, Start(cfg, 0), y) && Endangered(y, 0)
  {
    if r.timely {
      y := BeginLate(r, cfg);
      y := FinishLate(r, cfg, y);
    } else {
      y := DeliverFirst(r, cfg);
      y := Wait(r, cfg, y, cfg.minIdle);
      assert HandledBy(y, 0, 0);
    }
  }
}
