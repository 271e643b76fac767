/**
 Exactly when the broker protocol keeps its promises: each guarantee holds in every
 reachable state if and only if its assumption is made or the configuration supplies it.
 */
module Exactness {
  import opened Database
  import opened Broker
  import opened Dispatch
  import opened Conditions
  import opened Lease
  import opened Links
  import opened NoLostJob
  import opened Retries
  import opened BrokerWitnesses

  // ---- Timely starts are never overtaken ----

  /** A message whose start is awaited has been idle no longer than the worker has waited. */
  ghost predicate StartLeaseOk(y: System) {
    && MessagesKnown(y)
    && forall w :: w in y.workers ==> StartingOk(y, y.workers[w])
  }

  ghost predicate StartingOk(y: System, wk: Worker) {
    wk.Starting? ==>
      (&& Known(y, wk.msg) && wk.clock <= y.cfg.startBound
       && (wk.msg in y.pending ==> y.pending[wk.msg].idle <= wk.clock))
  }

  lemma IdleKept(y: System, e: Event, m: nat)
    requires Can(y, e) && !e.Tick? && Known(y, m) && MessagesKnown(y)
    ensures Known(After(y, e), m)
    ensures m in After(y, e).pending ==> m in y.pending && After(y, e).pending[m].idle <= y.pending[m].idle
  {
  }

  lemma StartingTick(y: System, w: nat)
    requires StartLeaseOk(y) && InTime(y) && w in y.workers
    ensures StartingOk(After(y, Tick), After(y, Tick).workers[w])
  {
    assert StartingOk(y, y.workers[w]);
  }

  lemma StartingActor(y: System, e: Event)
    requires MessagesKnown(y) && Can(y, e) && (TakesUp(e) || LeavesOff(e) || Proceeds(e))
    ensures e.w in After(y, e).workers && StartingOk(After(y, e), After(y, e).workers[e.w])
  {
    assert TakesUp(e) || !After(y, e).workers[e.w].Starting?;
  }

  lemma StartLeaseStep(y: System, e: Event)
    requires StartLeaseOk(y) && Can(y, e) && Timely(y, e)
    ensures StartLeaseOk(After(y, e)) && After(y, e).cfg == y.cfg
  {
    KnownStep(y, e);
    forall w | w in After(y, e).workers
      ensures StartingOk(After(y, e), After(y, e).workers[w])
    {
      if e.Tick? {
        StartingTick(y, w);
      } else if StepOf(e, w) {
        StartingActor(y, e);
      } else {
        Bystander(y, e, w);
        assert StartingOk(y, y.workers[w]);
        if y.workers[w].Starting? {
          IdleKept(y, e, y.workers[w].msg);
        }
      }
    }
  }

  /** If starts are answered before a message can look stuck, every reclaim is patient. */
  lemma PromptIsPatient(y: System, e: Event)
    requires StartLeaseOk(y) && y.cfg.startBound < y.cfg.minIdle && Can(y, e)
    ensures Patient(y, e)
  {
    if e.Reclaim? {
      forall v | v in y.workers
        ensures !(y.workers[v].Starting? && !y.workers[v].reclaimed && y.workers[v].msg == Head(y, e.w).msg)
      {
        assert StartingOk(y, y.workers[v]);
      }
    }
  }

  // ---- Without retries nothing is reclaimed ----

  /** Pending entries, and what scans saw of them, have been delivered at least once. */
  ghost predicate CountsOk(y: System) {
    && (forall m :: m in y.pending ==> 1 <= y.pending[m].count)
    && (forall w :: w in y.workers ==> RestOk(y.workers[w]))
  }

  ghost predicate RestOk(wk: Worker) {
    forall i :: 0 <= i < |wk.rest| ==> 1 <= wk.rest[i].count
  }

  lemma PendingCounts(y: System, e: Event, m: nat)
    requires CountsOk(y) && Can(y, e) && m in After(y, e).pending
    ensures 1 <= After(y, e).pending[m].count
  {
  }

  lemma RestCounts(y: System, e: Event)
    requires CountsOk(y) && Can(y, e) && (TakesUp(e) || LeavesOff(e) || Proceeds(e))
    ensures e.w in After(y, e).workers && RestOk(After(y, e).workers[e.w])
  {
    if !e.Join? {
      assert RestOk(y.workers[e.w]);
    }
  }

  lemma CountsStep(y: System, e: Event)
    requires CountsOk(y) && Can(y, e)
    ensures CountsOk(After(y, e)) && After(y, e).cfg == y.cfg
  {
    forall m | m in After(y, e).pending
      ensures 1 <= After(y, e).pending[m].count
    {
      PendingCounts(y, e, m);
    }
    forall w | w in After(y, e).workers
      ensures RestOk(After(y, e).workers[w])
    {
      if e.Tick? {
        assert RestOk(y.workers[w]);
      } else if StepOf(e, w) {
        RestCounts(y, e);
      } else {
        Bystander(y, e, w);
      }
    }
  }

  /** With no redelivery allowed, every scanned entry is past its limit. */
  lemma NothingReclaimed(y: System, e: Event)
    requires CountsOk(y) && y.cfg.maxDeliveries == 0 && Can(y, e)
    ensures Patient(y, e) && Current(y, e)
  {
    assert forall w :: w in y.workers ==> RestOk(y.workers[w]);
  }

  // ---- Assumptions that come for free ----

  lemma {:induction false} PatienceForFree(r: Rules, y: System, events: seq<Event>)
    requires r.timely && y.cfg.startBound < y.cfg.minIdle && StartLeaseOk(y) && Allowed(r, y, events)
    ensures Allowed(r.(patient := true), y, events)
    ensures Behave(r.(patient := true), y, events) == Behave(r, y, events)
    decreases |events|
  {
    if events != [] {
      PromptIsPatient(y, events[0]);
      StartLeaseStep(y, events[0]);
      PatienceForFree(r, After(y, events[0]), events[1..]);
    }
  }

  lemma {:induction false} CurrencyForFree(r: Rules, y: System, events: seq<Event>)
    requires y.cfg.maxDeliveries == 0 && CountsOk(y) && Allowed(r, y, events)
    ensures Allowed(r.(patient := true, current := true), y, events)
    ensures Behave(r.(patient := true, current := true), y, events) == Behave(r, y, events)
    decreases |events|
  {
    if events != [] {
      NothingReclaimed(y, events[0]);
      CountsStep(y, events[0]);
      CurrencyForFree(r, After(y, events[0]), events[1..]);
    }
  }

  lemma FreeReaches(r: Rules, cfg: Config, cap: int, y: System)
    requires Reaches(r, Start(cfg, cap), y)
    ensures r.timely && cfg.startBound < cfg.minIdle ==> Reaches(r.(patient := true), Start(cfg, cap), y)
    ensures cfg.maxDeliveries == 0 ==> Reaches(r.(patient := true, current := true), Start(cfg, cap), y)
  {
    var events: seq<Event> :| Allowed(r, Start(cfg, cap), events) && y == Behave(r, Start(cfg, cap), events);
    if r.timely && cfg.startBound < cfg.minIdle {
      PatienceForFree(r, Start(cfg, cap), events);
    }
    if cfg.maxDeliveries == 0 {
      CurrencyForFree(r, Start(cfg, cap), events);
    }
  }

  // ---- The characterisations ----

  ghost predicate NeverLosesJobs(r: Rules, cfg: Config) {
    forall cap: int, y: System, m: nat :: Reaches(r, Start(cfg, cap), y) ==> !Lost(y, m)
  }

  ghost predicate NeverEndangers(r: Rules, cfg: Config) {
    forall cap: int, y: System, m: nat :: Reaches(r, Start(cfg, cap), y) ==> !Endangered(y, m)
  }

  ghost predicate NeverOverruns(r: Rules, cfg: Config) {
    forall cap: int, y: System, m: nat :: Reaches(r, Start(cfg, cap), y) ==> HandledCount(y, m) <= cfg.maxDeliveries + 1
  }

  /** Starts cannot be overtaken: by assumption, for want of retries, or because they are answered in time. */
  predicate StartsFirst(r: Rules, cfg: Config) {
    r.patient || cfg.maxDeliveries == 0 || (r.timely && cfg.startBound < cfg.minIdle)
  }

  /**
   Jobs are never lost if and only if dead-letters are confirmed and a reclaim cannot
   overtake a message's first start.
   */
  lemma NoJobLostExactly(r: Rules, cfg: Config)
    ensures NeverLosesJobs(r, cfg) <==> r.confirmed && StartsFirst(r, cfg)
  {
    if !r.confirmed {
      var y := BlindDeadLetterLoses(r, cfg);
      assert Reaches(r, Start(cfg, 0), y) && Lost(y, 0);
    } else if !StartsFirst(r, cfg) {
      var y := ImpatientReclaimLoses(r, cfg);
      assert Reaches(r, Start(cfg, 0), y) && Lost(y, 0);
    } else {
      forall cap: int, y: System, m: nat | Reaches(r, Start(cfg, cap), y)
        ensures !Lost(y, m)
      {
        FreeReaches(r, cfg, cap, y);
        if r.patient {
          NoJobLost(r, cfg, cap, y, m);
        } else if cfg.maxDeliveries == 0 {
          NoJobLost(r.(patient := true, current := true), cfg, cap, y, m);
        } else {
          NoJobLost(r.(patient := true), cfg, cap, y, m);
        }
      }
    }
  }

  /**
   A message in a live handler's hands never comes up for reclaim if and only if workers
   keep their deadlines and start latency, heartbeat interval and completion latency
   together stay below the reclaim threshold.
   */
  lemma LeaseExactly(r: Rules, cfg: Config)
    ensures NeverEndangers(r, cfg) <==> r.timely && Slack(cfg)
  {
    if r.timely && Slack(cfg) {
      forall cap: int, y: System, m: nat | Reaches(r, Start(cfg, cap), y)
        ensures !Endangered(y, m)
      {
        LeaseSafety(r, cfg, cap, y);
      }
    } else {
      var y := LeaseRunsOut(r, cfg);
      assert Reaches(r, Start(cfg, 0), y) && Endangered(y, 0);
    }
  }

  lemma HandledAtMost(r: Rules, cfg: Config, cap: int, y: System, m: nat)
    requires r.current && Reaches(r, Start(cfg, cap), y)
    ensures HandledCount(y, m) <= cfg.maxDeliveries + 1
  {
    var events: seq<Event> :| Allowed(r, Start(cfg, cap), events) && y == Behave(r, Start(cfg, cap), events);
    DeliveriesBounded(r, cfg, cap, events, m);
  }

  /**
   A message is handled at most maxDeliveries + 1 times if and only if claims act on
   current counts, or there is no redelivery at all.
   */
  lemma DeliveriesBoundedExactly(r: Rules, cfg: Config)
    ensures NeverOverruns(r, cfg) <==> r.current || cfg.maxDeliveries == 0
  {
    if r.current || cfg.maxDeliveries == 0 {
      forall cap: int, y: System, m: nat | Reaches(r, Start(cfg, cap), y)
        ensures HandledCount(y, m) <= cfg.maxDeliveries + 1
      {
        FreeReaches(r, cfg, cap, y);
        if r.current {
          HandledAtMost(r, cfg, cap, y, m);
        } else {
          HandledAtMost(r.(patient := true, current := true), cfg, cap, y, m);
        }
      }
    } else {
      var y := StaleClaimOverruns(r, cfg);
      assert Reaches(r, Start(cfg, 0), y) && HandledCount(y, 0) == cfg.maxDeliveries + 2;
    }
  }
}
