/**
 The heartbeat lease: a message held by a live worker is never reclaimed, provided
 the reclaim threshold exceeds the start latency, the heartbeat interval and the
 completion latency together.
 */
module Lease {
  import opened Dispatch
  import opened Conditions

  ghost predicate Slack(cfg: Config) {
    cfg.startBound + cfg.beatBound + cfg.finishBound < cfg.minIdle
  }

  /** The longest a message can have been idle while its worker is in this phase. */
  function AllowedIdle(cfg: Config, wk: Worker): nat {
    match wk
    case Starting(_, _, _, clock, _) => clock
    case Executing(_, clock, _) => cfg.startBound + clock
    case Reporting(_, _, clock, _) => cfg.startBound + cfg.beatBound + clock
    case Acking(_, clock, _) => cfg.startBound + cfg.beatBound + clock
    case _ => 0
  }

  // ---- The invariant ----

  /** A handled message has been delivered, and was claimed recently enough. */
  ghost predicate HandlerOk(y: System, w: nat)
    requires w in y.workers
  {
    var wk := y.workers[w];
    && 0 <= Urgency(y.cfg, wk)
    && forall m :: wk.Handles(m) ==>
         m in y.published && m !in y.undelivered && (m in y.pending ==> y.pending[m].idle <= AllowedIdle(y.cfg, wk))
  }

  /** Worker w is alive and handling message m. */
  ghost predicate HandledBy(y: System, w: nat, m: nat) {
    w in y.workers && y.workers[w].Handles(m)
  }

  ghost predicate OneHandler(y: System) {
    forall v, w, m :: HandledBy(y, v, m) && HandledBy(y, w, m) ==> v == w
  }

  /** Only published messages circulate. */
  ghost predicate MessagesKnown(y: System) {
    && y.undelivered <= y.published
    && (forall m :: m in y.pending ==> m in y.published && m !in y.undelivered)
  }

  ghost predicate LeaseOk(y: System) {
    MessagesKnown(y) && OneHandler(y) && forall w :: w in y.workers ==> HandlerOk(y, w)
  }

  lemma StartLeaseOk(cfg: Config, cap: int)
    ensures LeaseOk(Start(cfg, cap))
  {
  }

  /** A stuck message is handled by nobody. */
  lemma StuckUnhandled(y: System, m: nat)
    requires LeaseOk(y) && Slack(y.cfg) && Stuck(y, m)
    ensures forall w :: !HandledBy(y, w, m)
  {
    forall w | w in y.workers
      ensures !HandledBy(y, w, m)
    {
      assert HandlerOk(y, w);
    }
  }

  lemma UndeliveredUnhandled(y: System, m: nat)
    requires LeaseOk(y) && m in y.undelivered
    ensures forall w :: !HandledBy(y, w, m)
  {
    forall w | w in y.workers
      ensures !HandledBy(y, w, m)
    {
      assert HandlerOk(y, w);
    }
  }

  /** The message a worker takes into its hands with this event. */
  ghost predicate Takes(y: System, e: Event, w: nat, m: nat)
    requires Can(y, e)
  {
    (e.Deliver? && e.w == w && e.msg == m) || (e.Reclaim? && e.w == w && Head(y, w).msg == m)
  }

  lemma HandlersStep(y: System, e: Event, w: nat, m: nat)
    requires Can(y, e) && HandledBy(After(y, e), w, m)
    ensures HandledBy(y, w, m) || Takes(y, e, w, m)
  {
    if !e.Tick? && !StepOf(e, w) {
      Bystander(y, e, w);
    }
  }

  lemma KnownStep(y: System, e: Event)
    requires MessagesKnown(y) && Can(y, e)
    ensures MessagesKnown(After(y, e))
  {
    if e.Store? {
    } else if e.Tick? {
    } else {
    }
  }

  lemma OneHandlerStep(y: System, e: Event)
    requires LeaseOk(y) && Slack(y.cfg) && Can(y, e)
    ensures OneHandler(After(y, e))
  {
    forall v, w, m | HandledBy(After(y, e), v, m) && HandledBy(After(y, e), w, m)
      ensures v == w
    {
      HandlersStep(y, e, v, m);
      HandlersStep(y, e, w, m);
      if e.Reclaim? && Head(y, e.w).msg == m {
        StuckUnhandled(y, m);
      } else if e.Deliver? && e.msg == m {
        UndeliveredUnhandled(y, m);
      }
    }
  }

  /** What an event does to the pending entry of a message that stays handled. */
  lemma EntryStep(y: System, e: Event, m: nat)
    requires LeaseOk(y) && Slack(y.cfg) && Can(y, e) && !e.Tick? && m in y.published && m !in y.undelivered
    requires exists w :: HandledBy(y, w, m)
    ensures m in After(y, e).published && m !in After(y, e).undelivered
    ensures m in After(y, e).pending ==> m in y.pending && After(y, e).pending[m].idle <= y.pending[m].idle
  {
    if (e.Reclaim? || e.ReclaimLost?) && Head(y, e.w).msg == m {
      StuckUnhandled(y, m);
    }
  }

  /** A worker that does not act keeps its lease. */
  lemma HandlerElsewhere(y: System, e: Event, w: nat)
    requires LeaseOk(y) && Slack(y.cfg) && Can(y, e) && !e.Tick?
    requires w in y.workers && w in After(y, e).workers && After(y, e).workers[w] == y.workers[w]
    ensures HandlerOk(After(y, e), w)
  {
    assert HandlerOk(y, w);
    forall m | y.workers[w].Handles(m)
      ensures m in After(y, e).published && m !in After(y, e).undelivered
      ensures m in After(y, e).pending ==> After(y, e).pending[m].idle <= AllowedIdle(y.cfg, y.workers[w])
    {
      assert HandledBy(y, w, m);
      EntryStep(y, e, m);
    }
  }

  lemma HandlerTick(y: System, w: nat)
    requires LeaseOk(y) && InTime(y) && w in y.workers
    ensures HandlerOk(After(y, Tick), w)
  {
    assert HandlerOk(y, w);
  }

  ghost predicate TakesUp(e: Event) { e.Deliver? || e.Reclaim? }

  ghost predicate LeavesOff(e: Event) {
    e.Join? || e.Scan? || e.ReclaimLost? || e.Skip? || e.DeadLetter? || e.DeadLetterBlind? || e.Ack? || e.AckLost? || e.GiveUp?
  }

  ghost predicate Proceeds(e: Event) { e.Answered? || e.Beat? || e.Finish? }

  /** The event is a step of worker w. */
  ghost predicate StepOf(e: Event, w: nat) {
    (TakesUp(e) || LeavesOff(e) || Proceeds(e)) && e.w == w
  }

  /** Taking a message up starts its idle clock and the worker's together. */
  lemma HandlerTakesUp(y: System, e: Event)
    requires LeaseOk(y) && Can(y, e) && TakesUp(e)
    ensures e.w in After(y, e).workers && HandlerOk(After(y, e), e.w)
  {
  }

  /** A worker that holds no message, or lets go of it, is under no obligation. */
  lemma HandlerLeavesOff(y: System, e: Event)
    requires LeaseOk(y) && Can(y, e) && LeavesOff(e)
    ensures e.w in After(y, e).workers && HandlerOk(After(y, e), e.w)
  {
    assert !After(y, e).workers[e.w].Starting? && !After(y, e).workers[e.w].Executing?
        && !After(y, e).workers[e.w].Reporting? && !After(y, e).workers[e.w].Acking?;
  }

  /** The acting worker's next phase allows at least the idle time its message has. */
  lemma HandlerProceeds(y: System, e: Event)
    requires LeaseOk(y) && Can(y, e) && Proceeds(e)
    ensures e.w in After(y, e).workers && HandlerOk(After(y, e), e.w)
  {
    assert HandlerOk(y, e.w);
  }

  /** A worker other than the one named by the event stays as it is. */
  lemma Bystander(y: System, e: Event, w: nat)
    requires Can(y, e) && !e.Tick? && w in After(y, e).workers
    requires !StepOf(e, w)
    ensures w in y.workers && After(y, e).workers[w] == y.workers[w]
  {
    if e.Store? {
    } else {
    }
  }

  lemma LeaseStep(y: System, e: Event)
    requires LeaseOk(y) && Slack(y.cfg) && Can(y, e) && Timely(y, e)
    ensures LeaseOk(After(y, e)) && After(y, e).cfg == y.cfg
  {
    KnownStep(y, e);
    OneHandlerStep(y, e);
    forall w | w in After(y, e).workers
      ensures HandlerOk(After(y, e), w)
    {
      if e.Tick? {
        HandlerTick(y, w);
      } else if TakesUp(e) && e.w == w {
        HandlerTakesUp(y, e);
      } else if LeavesOff(e) && e.w == w {
        HandlerLeavesOff(y, e);
      } else if Proceeds(e) && e.w == w {
        HandlerProceeds(y, e);
      } else {
        Bystander(y, e, w);
        HandlerElsewhere(y, e, w);
      }
    }
  }

  lemma {:induction false} LeaseRun(r: Rules, y: System, events: seq<Event>)
    requires r.timely && LeaseOk(y) && Slack(y.cfg) && Allowed(r, y, events)
    ensures LeaseOk(Behave(r, y, events)) && Behave(r, y, events).cfg == y.cfg
    decreases |events|
  {
    if events != [] {
      LeaseStep(y, events[0]);
      LeaseRun(r, After(y, events[0]), events[1..]);
    }
  }

  // ---- What the lease guarantees ----

  lemma ReachableLease(r: Rules, cfg: Config, cap: int, y: System)
    requires r.timely && Slack(cfg) && Reaches(r, Start(cfg, cap), y)
    ensures LeaseOk(y) && y.cfg == cfg
  {
    var events: seq<Event> :| Allowed(r, Start(cfg, cap), events) && y == Behave(r, Start(cfg, cap), events);
    StartLeaseOk(cfg, cap);
    LeaseRun(r, Start(cfg, cap), events);
  }

  /** A message that may be reclaimed although a live worker is handling it. */
  ghost predicate Endangered(y: System, m: nat) {
    Stuck(y, m) && exists w :: HandledBy(y, w, m)
  }

  /**
   Lease safety, across crashes, lost replies and take-overs: a message is reclaimed
   only when no live worker is handling it, so at most one live worker ever executes a shard.
   */
  lemma LeaseSafety(r: Rules, cfg: Config, cap: int, y: System)
    requires r.timely && Slack(cfg) && Reaches(r, Start(cfg, cap), y)
    ensures forall m :: !Endangered(y, m)
    ensures forall w, sid, v :: Can(y, Reclaim(w, sid)) ==> !HandledBy(y, v, Head(y, w).msg)
    ensures forall w, v :: Can(y, ReclaimLost(w)) ==> !HandledBy(y, v, Head(y, w).msg)
    ensures OneHandler(y)
  {
    ReachableLease(r, cfg, cap, y);
    forall m | Stuck(y, m)
      ensures forall w :: !HandledBy(y, w, m)
    {
      StuckUnhandled(y, m);
    }
  }
}
