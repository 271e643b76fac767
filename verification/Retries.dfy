/**
 Deliveries are bounded. When a claim acts on the delivery count as it is, rather than
 on what an earlier scan saw, a message is handed to a handler at most maxDeliveries + 1
 times, and the work done on it is bounded however workers crash and requests get lost.
 */
module Retries {
  import opened Dispatch
  import opened Conditions
  import opened Lease

  /** Deliveries the message still has: all of them before the first, none once it is acked. */
  function Remaining(y: System, m: nat): int {
    if m in y.pending then y.cfg.maxDeliveries + 1 - y.pending[m].count
    else if m in y.published && m !in y.undelivered then 0
    else y.cfg.maxDeliveries + 1
  }

  /** Steps a handler of the message has left. */
  function Phase(wk: Worker, m: nat): nat {
    match wk
    case Starting(n, _, _, _, _) => if n == m then 4 else 0
    case Executing(n, _, _) => if n == m then 3 else 0
    case Reporting(n, _, _, _) => if n == m then 2 else 0
    case Acking(n, _, _) => if n == m then 1 else 0
    case _ => 0
  }

  // ---- The work in hand: phases summed over the workers ----

  /** Workers that have at least k steps left on the message. */
  function AtLeast(workers: map<nat, Worker>, m: nat, k: nat): set<nat> {
    set w | w in workers && k <= Phase(workers[w], m)
  }

  function Load(workers: map<nat, Worker>, m: nat): nat {
    |AtLeast(workers, m, 1)| + |AtLeast(workers, m, 2)| + |AtLeast(workers, m, 3)| + |AtLeast(workers, m, 4)|
  }

  function Steps(workers: map<nat, Worker>, w: nat, m: nat): nat {
    if w in workers then Phase(workers[w], m) else 0
  }

  function Indicator(b: bool): int { if b then 1 else 0 }

  /** Two sets that agree outside w differ in size by w's membership. */
  lemma SizeChange(x: set<nat>, y: set<nat>, w: nat)
    requires forall v :: v != w ==> (v in x <==> v in y)
    ensures |y| - |x| == Indicator(w in y) - Indicator(w in x)
  {
    assert x - {w} == y - {w};
    assert w in x ==> x == (x - {w}) + {w};
    assert w in y ==> y == (y - {w}) + {w};
    assert w !in x ==> x == x - {w};
    assert w !in y ==> y == y - {w};
  }

  /** The workers other than w are the same. */
  ghost predicate SameExcept(a: map<nat, Worker>, b: map<nat, Worker>, w: nat) {
    forall v :: v != w ==> (v in a <==> v in b) && (v in a ==> a[v] == b[v])
  }

  /** When one worker moves, the work in hand moves by as much. */
  lemma LoadChange(a: map<nat, Worker>, b: map<nat, Worker>, w: nat, m: nat)
    requires SameExcept(a, b, w)
    ensures Load(b, m) - Load(a, m) == Steps(b, w, m) - Steps(a, w, m)
  {
    SizeChange(AtLeast(a, m, 1), AtLeast(b, m, 1), w);
    SizeChange(AtLeast(a, m, 2), AtLeast(b, m, 2), w);
    SizeChange(AtLeast(a, m, 3), AtLeast(b, m, 3), w);
    SizeChange(AtLeast(a, m, 4), AtLeast(b, m, 4), w);
  }

  /** A tick leaves every phase as it is. */
  lemma LoadTicked(y: System, m: nat)
    ensures Load(After(y, Tick).workers, m) == Load(y.workers, m)
  {
    var a, b := y.workers, After(y, Tick).workers;
    assert forall w :: w in b ==> Phase(b[w], m) == Phase(a[w], m);
    assert AtLeast(a, m, 1) == AtLeast(b, m, 1);
    assert AtLeast(a, m, 2) == AtLeast(b, m, 2);
    assert AtLeast(a, m, 3) == AtLeast(b, m, 3);
    assert AtLeast(a, m, 4) == AtLeast(b, m, 4);
  }

  // ---- Steps that handle a message ----

  /** The event delivers the message, or is a step of a worker handling it other than a heartbeat. */
  ghost predicate Progresses(y: System, e: Event, m: nat)
    requires Can(y, e)
  {
    match e
    case Deliver(_, n, _) => n == m
    case DeliverLost(n, _) => n == m
    case Reclaim(w, _) => Head(y, w).msg == m
    case ReclaimLost(w) => Head(y, w).msg == m
    case Crash(w) => HandledBy(y, w, m)
    case Answered(w) => HandledBy(y, w, m)
    case GiveUp(w) => HandledBy(y, w, m)
    case Finish(w, _, _) => HandledBy(y, w, m)
    case Ack(w) => HandledBy(y, w, m)
    case AckLost(w) => HandledBy(y, w, m)
    case _ => false
  }

  ghost predicate BoundOk(y: System) {
    && MessagesKnown(y)
    && (forall m :: m in y.pending ==> y.pending[m].count <= y.cfg.maxDeliveries + 1)
    && (forall m :: HandledCount(y, m) + Remaining(y, m) <= y.cfg.maxDeliveries + 1)
  }

  lemma StartBoundOk(cfg: Config, cap: int)
    ensures BoundOk(Start(cfg, cap))
  {
  }

  /** What an event does to the deliveries a message has left. */
  lemma RemainingStep(y: System, e: Event, m: nat)
    requires BoundOk(y) && Can(y, e) && Current(y, e)
    ensures 0 <= Remaining(After(y, e), m) <= Remaining(y, m)
    ensures e.Beat? || e.Tick? ==> Remaining(After(y, e), m) == Remaining(y, m)
    ensures e.DeliverLost? && e.msg == m ==> Remaining(After(y, e), m) < Remaining(y, m)
    ensures e.ReclaimLost? && Head(y, e.w).msg == m ==> Remaining(After(y, e), m) < Remaining(y, m)
    ensures TakesUp(e) && Takes(y, e, e.w, m) ==> Remaining(After(y, e), m) < Remaining(y, m)
  {
  }

  lemma BoundStep(y: System, e: Event)
    requires BoundOk(y) && Can(y, e) && Current(y, e)
    ensures BoundOk(After(y, e)) && After(y, e).cfg == y.cfg
  {
    var z := After(y, e);
    KnownStep(y, e);
    forall m | m in z.pending
      ensures z.pending[m].count <= z.cfg.maxDeliveries + 1
    {
      RemainingStep(y, e, m);
    }
    forall m
      ensures HandledCount(z, m) + Remaining(z, m) <= z.cfg.maxDeliveries + 1
    {
      HandedStep(y, e, m);
    }
  }

  /** Handing a message to a handler uses up one of its deliveries. */
  lemma HandedStep(y: System, e: Event, m: nat)
    requires BoundOk(y) && Can(y, e) && Current(y, e)
    ensures HandledCount(After(y, e), m) == HandledCount(y, m) + Indicator(TakesUp(e) && Takes(y, e, e.w, m))
    ensures HandledCount(After(y, e), m) + Remaining(After(y, e), m) <= y.cfg.maxDeliveries + 1
  {
    RemainingStep(y, e, m);
  }

  // ---- The measure ----

  ghost predicate Acts(e: Event) { e.Crash? || TakesUp(e) || LeavesOff(e) || Proceeds(e) }

  lemma OthersSame(y: System, e: Event)
    requires Can(y, e) && Acts(e)
    ensures SameExcept(y.workers, After(y, e).workers, e.w)
  {
    forall v | v != e.w
      ensures (v in y.workers <==> v in After(y, e).workers)
      ensures v in y.workers ==> y.workers[v] == After(y, e).workers[v]
    {
      if v in After(y, e).workers {
        Bystander(y, e, v);
      }
    }
  }

  /** The acting worker takes on four steps with a message, and gets at least one done whenever it handles it. */
  lemma ActorSteps(y: System, e: Event, m: nat)
    requires Can(y, e) && Acts(e)
    ensures var before, after := Steps(y.workers, e.w, m), Steps(After(y, e).workers, e.w, m);
      if TakesUp(e) && Takes(y, e, e.w, m) then before == 0 && after == 4
      else if Progresses(y, e, m) && !e.ReclaimLost? then after < before
      else after <= before
  {
  }

  lemma LoadStep(y: System, e: Event, m: nat)
    requires Can(y, e)
    ensures var before, after := Load(y.workers, m), Load(After(y, e).workers, m);
      if TakesUp(e) && Takes(y, e, e.w, m) then after == before + 4
      else if Progresses(y, e, m) && !e.ReclaimLost? && !e.DeliverLost? then after < before
      else after <= before
  {
    if e.Tick? {
      LoadTicked(y, m);
    } else if Acts(e) {
      OthersSame(y, e);
      LoadChange(y.workers, After(y, e).workers, e.w, m);
      ActorSteps(y, e, m);
    } else {
      assert After(y, e).workers == y.workers;
    }
  }

  /**
   The measure (remaining deliveries, steps in hand) drops lexicographically whenever
   a message is delivered or a step of its handling is taken, crashes, give-ups and lost
   acks included; nothing that happens, heartbeats included, ever raises it otherwise.
   */
  lemma MeasureDrops(y: System, e: Event, m: nat)
    requires BoundOk(y) && Can(y, e) && Current(y, e)
    ensures var z := After(y, e);
      && 0 <= Remaining(z, m) <= Remaining(y, m)
      && (e.Beat? || e.Tick? ==> Remaining(z, m) == Remaining(y, m))
      && (Progresses(y, e, m) ==>
            Remaining(z, m) < Remaining(y, m) || Load(z.workers, m) < Load(y.workers, m))
      && (!Progresses(y, e, m) ==> Load(z.workers, m) <= Load(y.workers, m))
      && (Load(y.workers, m) < Load(z.workers, m) ==> Remaining(z, m) < Remaining(y, m))
  {
    RemainingStep(y, e, m);
    LoadStep(y, e, m);
  }

  function Budget(y: System, m: nat): int {
    5 * Remaining(y, m) + Load(y.workers, m)
  }

  lemma BudgetDrops(y: System, e: Event, m: nat)
    requires BoundOk(y) && Can(y, e) && Current(y, e)
    ensures 0 <= Budget(After(y, e), m) <= Budget(y, m) - Indicator(Progresses(y, e, m))
  {
    RemainingStep(y, e, m);
    LoadStep(y, e, m);
  }

  /** How many deliveries and handling steps of message m a behaviour contains. */
  ghost function Progress(r: Rules, y: System, events: seq<Event>, m: nat): nat
    requires Allowed(r, y, events)
    decreases |events|
  {
    if events == [] then 0
    else (if Progresses(y, events[0], m) then 1 else 0) + Progress(r, After(y, events[0]), events[1..], m)
  }

  lemma {:induction false} BudgetBounds(r: Rules, y: System, events: seq<Event>, m: nat)
    requires r.current && BoundOk(y) && Allowed(r, y, events) && 0 <= Budget(y, m)
    ensures BoundOk(Behave(r, y, events)) && Behave(r, y, events).cfg == y.cfg
    ensures Progress(r, y, events, m) + Budget(Behave(r, y, events), m) <= Budget(y, m)
    ensures 0 <= Budget(Behave(r, y, events), m)
    decreases |events|
  {
    if events != [] {
      BoundStep(y, events[0]);
      BudgetDrops(y, events[0], m);
      BudgetBounds(r, After(y, events[0]), events[1..], m);
    }
  }

  /**
   In every behaviour whose claims act on current counts a message is handed to handlers at most
   maxDeliveries + 1 times, its delivery counter never passes that, and all its deliveries
   and handling steps together number at most five times as many.
   */
  lemma DeliveriesBounded(r: Rules, cfg: Config, cap: int, events: seq<Event>, m: nat)
    requires r.current && Allowed(r, Start(cfg, cap), events)
    ensures var y := Behave(r, Start(cfg, cap), events);
      && HandledCount(y, m) <= cfg.maxDeliveries + 1
      && (m in y.pending ==> y.pending[m].count <= cfg.maxDeliveries + 1)
    ensures Progress(r, Start(cfg, cap), events, m) <= 5 * (cfg.maxDeliveries + 1)
  {
    var y := Start(cfg, cap);
    StartBoundOk(cfg, cap);
    assert AtLeast(y.workers, m, 1) == {} && AtLeast(y.workers, m, 2) == {}
        && AtLeast(y.workers, m, 3) == {} && AtLeast(y.workers, m, 4) == {};
    BudgetBounds(r, y, events, m);
    var z := Behave(r, y, events);
    assert HandledCount(z, m) + Remaining(z, m) <= cfg.maxDeliveries + 1;
    assert m in z.pending ==> Remaining(z, m) == cfg.maxDeliveries + 1 - z.pending[m].count;
  }
}
