/**
 The assumptions under which the composed system is analysed. Each theorem says which
 of them it needs, and the witnesses show that it cannot do without them.
 */
module Conditions {
  import opened Database
  import opened Dispatch

  // ---- Timing ----

  /** Ticks a worker may still spend in its phase, or without a heartbeat. */
  function Urgency(cfg: Config, wk: Worker): int {
    match wk
    case Starting(_, _, _, clock, _) => cfg.startBound - clock
    case Executing(_, clock, _) => cfg.beatBound - clock
    case Reporting(_, _, clock, _) => cfg.finishBound - clock
    case Acking(_, clock, _) => cfg.finishBound - clock
    case _ => 1
  }

  /** No live worker is about to overrun the latency its phase is allowed. */
  ghost predicate InTime(y: System) {
    forall w :: w in y.workers ==> Urgency(y.cfg, y.workers[w]) > 0
  }

  /** Time does not pass a live worker's deadline. */
  ghost predicate Timely(y: System, e: Event) {
    e.Tick? ==> InTime(y)
  }

  // ---- Dead-lettering ----

  /** Dead-lettering acks only after the store has confirmed FailShard. */
  ghost predicate Confirmed(y: System, e: Event)
    requires Can(y, e)
  {
    && !e.DeadLetterBlind?
    && (e.GiveUp? ==> !y.workers[e.w].Failing?)
    && (e.Answered? && y.workers[e.w].Failing? ==>
          var reply := y.db.replies[y.workers[e.w].sid].reply; reply.Ok? || reply.NoOp?)
  }

  // ---- Reclaiming ----

  /** No live worker still waits for the answer to the message's first start. */
  ghost predicate FirstStartResolved(y: System, m: nat) {
    forall v :: v in y.workers ==> !(y.workers[v].Starting? && !y.workers[v].reclaimed && y.workers[v].msg == m)
  }

  ghost predicate Patient(y: System, e: Event)
    requires Can(y, e)
  {
    e.Reclaim? ==> FirstStartResolved(y, Head(y, e.w).msg)
  }

  /** Scan and claim are one step: a reclaimed entry's count is what the scan saw. */
  ghost predicate Current(y: System, e: Event)
    requires Can(y, e)
  {
    e.Reclaim? || e.ReclaimLost? ==> Head(y, e.w).count == y.pending[Head(y, e.w).msg].count
  }

  // ---- Behaviours that meet them ----

  datatype Rules = Rules(timely: bool, confirmed: bool, patient: bool, current: bool)

  ghost predicate Obeys(r: Rules, y: System, e: Event)
    requires Can(y, e)
  {
    && (r.timely ==> Timely(y, e))
    && (r.confirmed ==> Confirmed(y, e))
    && (r.patient ==> Patient(y, e))
    && (r.current ==> Current(y, e))
  }

  /** A behaviour of the system from y all of whose events obey the rules. */
  ghost predicate Allowed(r: Rules, y: System, events: seq<Event>)
    decreases |events|
  {
    events == [] ||
    (Can(y, events[0]) && Obeys(r, y, events[0]) && Allowed(r, After(y, events[0]), events[1..]))
  }

  ghost function Behave(r: Rules, y: System, events: seq<Event>): System
    requires Allowed(r, y, events)
    decreases |events|
  {
    if events == [] then y else Behave(r, After(y, events[0]), events[1..])
  }

  /** z is reached from y by events that obey the rules. */
  ghost predicate Reaches(r: Rules, y: System, z: System) {
    exists events: seq<Event> :: Allowed(r, y, events) && z == Behave(r, y, events)
  }

  /** One more event at the end of a behaviour. */
  lemma {:induction false} BehaveOn(r: Rules, y: System, events: seq<Event>, e: Event)
    requires Allowed(r, y, events) && Can(Behave(r, y, events), e) && Obeys(r, Behave(r, y, events), e)
    ensures Allowed(r, y, events + [e]) && Behave(r, y, events + [e]) == After(Behave(r, y, events), e)
    decreases |events|
  {
    var longer := events + [e];
    if events == [] {
      OneEvent(r, y, e);
      assert longer == [e];
    } else {
      BehaveOn(r, After(y, events[0]), events[1..], e);
      assert longer[0] == events[0] && longer[1..] == events[1..] + [e];
    }
  }

  lemma OneEvent(r: Rules, y: System, e: Event)
    requires Can(y, e) && Obeys(r, y, e)
    ensures Allowed(r, y, [e]) && Behave(r, y, [e]) == After(y, e)
  {
    var z, none := After(y, e), [e][1..];
    assert Allowed(r, z, none) && Behave(r, z, none) == z;
  }

  lemma ReachesSelf(r: Rules, y: System)
    ensures Reaches(r, y, y)
  {
    var none: seq<Event> := [];
    assert Allowed(r, y, none) && Behave(r, y, none) == y;
  }

  lemma ReachesOn(r: Rules, y: System, z: System, e: Event)
    requires Reaches(r, y, z) && Can(z, e) && Obeys(r, z, e)
    ensures Reaches(r, y, After(z, e))
  {
    var events: seq<Event> :| Allowed(r, y, events) && z == Behave(r, y, events);
    BehaveOn(r, y, events, e);
  }

  lemma {:induction false} ReachesAll(r: Rules, y: System, z: System, events: seq<Event>)
    requires Reaches(r, y, z) && Allowed(r, z, events)
    ensures Reaches(r, y, Behave(r, z, events))
    decreases |events|
  {
    if events != [] {
      ReachesOn(r, y, z, events[0]);
      ReachesAll(r, y, After(z, events[0]), events[1..]);
    }
  }
}
