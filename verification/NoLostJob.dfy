/** At-least-once delivery: a published shard that is not finished still has its message. */
module NoLostJob {
  import opened Tables
  import opened Database
  import opened Lifecycle
  import opened Barrier
  import opened Calls
  import opened Dispatch
  import opened Conditions
  import opened Lease
  import opened Links

  // ---- The invariant ----

  ghost predicate Done(s: State, m: nat) {
    m < |s.shards| && s.shards[m].status.Terminal()
  }

  /** The message can still be delivered, or delivered again. */
  predicate Available(y: System, m: nat) {
    m in y.undelivered || m in y.pending
  }

  ghost predicate JobKept(y: System, m: nat) {
    m in y.published ==> Available(y, m) || Done(y.db, m)
  }

  /** Acks are earned, and a first start has no rival. */
  ghost predicate JobWorkerOk(y: System, wk: Worker) {
    && (wk.Acking? || wk.Discarding? ==> Done(y.db, wk.msg))
    && (wk.Starting? && !wk.reclaimed ==> forall sid :: StartsOn(y.db, sid, wk.msg) ==> sid == wk.sid)
  }

  ghost predicate JobsOk(y: System) {
    && (forall m :: JobKept(y, m))
    && (forall w :: w in y.workers ==> JobWorkerOk(y, y.workers[w]))
  }

  // ---- Preservation ----

  lemma DoneStays(s: State, t: State, m: nat)
    requires Done(s, m) && Later(s, t)
    ensures Done(t, m)
  {
    assert ShardLater(s.shards[m], t.shards[m]);
  }

  /** If the only start of a shard was refused, the shard is finished: nobody is running it. */
  lemma RefusedMeansDone(s: State, sid: nat, m: nat)
    requires Inv(s) && sid in s.replies && s.replies[sid] == Outcome(StartShard(m), NotQueued)
    requires forall x :: StartsOn(s, x, m) ==> x == sid
    ensures Done(s, m)
  {
    assert ReplyOk(s, sid) && ShardOk(s, m) && (sid in s.sessions ==> SessionOk(s, sid));
    if s.shards[m].status.ShardRunning? {
      assert StarterOk(s, m) && StartsOn(s, s.starter[m], m);
    }
  }

  /** Every answer that leads to an ack shows that the shard is finished. */
  lemma AckEarned(y: System, w: nat)
    requires SystemOk(y) && Can(y, Answered(w)) && Confirmed(y, Answered(w)) && JobWorkerOk(y, y.workers[w])
    ensures JobWorkerOk(y, After(y, Answered(w)).workers[w])
  {
    var wk := y.workers[w];
    assert WorkerOk(y, wk) && Pursued(y.db, wk);
    assert SessionsOk(y.db) && (wk.sid in y.db.sessions ==> SessionOk(y.db, wk.sid));
    assert ReplyOk(y.db, wk.sid);
    if wk.Starting? && !wk.reclaimed && y.db.replies[wk.sid].reply.NotQueued? {
      RefusedMeansDone(y.db, wk.sid, wk.msg);
    } else if wk.Reporting? && y.db.replies[wk.sid].reply.Ok? {
      assert ShardOk(y.db, wk.msg);
    } else if wk.Failing? && y.db.replies[wk.sid].reply.Ok? {
      assert ShardOk(y.db, wk.msg);
    }
  }

  /** A worker that has just taken a message up is alone in starting it, unless it took it over. */
  lemma FirstStartAlone(y: System, e: Event)
    requires SystemOk(y) && Can(y, e) && TakesUp(e) && Rooted(y.db)
    ensures e.w in After(y, e).workers && JobWorkerOk(After(y, e), After(y, e).workers[e.w])
  {
    var z := After(y, e);
    if e.Deliver? {
      forall sid | StartsOn(z.db, sid, e.msg)
        ensures sid == e.sid
      {
        StartsFrom(y, e, sid, e.msg);
      }
    }
  }

  lemma ActorJobOk(y: System, e: Event)
    requires SystemOk(y) && Can(y, e) && Confirmed(y, e) && Patient(y, e) && (LeavesOff(e) || e.Beat? || e.Finish?)
    requires e.w in y.workers ==> JobWorkerOk(y, y.workers[e.w])
    ensures e.w in After(y, e).workers && JobWorkerOk(After(y, e), After(y, e).workers[e.w])
  {
    var wk := After(y, e).workers[e.w];
    assert !wk.Starting? && !wk.Acking? && !wk.Discarding?;
  }

  /** A worker that does not act keeps what it relies on. */
  lemma WaitingJobOk(y: System, e: Event, v: nat)
    requires SystemOk(y) && Can(y, e) && Confirmed(y, e) && Patient(y, e) && Rooted(y.db) && Later(y.db, After(y, e).db)
    requires v in y.workers && JobWorkerOk(y, y.workers[v])
    ensures JobWorkerOk(After(y, e), y.workers[v])
  {
    var wk, z := y.workers[v], After(y, e);
    assert WorkerOk(y, wk);
    if wk.Acking? || wk.Discarding? {
      DoneStays(y.db, z.db, wk.msg);
    } else if wk.Starting? && !wk.reclaimed {
      forall sid | StartsOn(z.db, sid, wk.msg)
        ensures sid == wk.sid
      {
        StartsFrom(y, e, sid, wk.msg);
      }
    }
  }

  lemma JobWorkerStep(y: System, e: Event, w: nat)
    requires SystemOk(y) && Can(y, e) && Confirmed(y, e) && Patient(y, e) && Rooted(y.db) && Later(y.db, After(y, e).db)
    requires w in After(y, e).workers && (w in y.workers ==> JobWorkerOk(y, y.workers[w]))
    ensures JobWorkerOk(After(y, e), After(y, e).workers[w])
  {
    if StepOf(e, w) {
      if TakesUp(e) {
        FirstStartAlone(y, e);
      } else if e.Answered? {
        AckEarned(y, w);
      } else {
        ActorJobOk(y, e);
      }
    } else if e.Tick? {
      WaitingJobOk(y, e, w);
    } else {
      Bystander(y, e, w);
      WaitingJobOk(y, e, w);
    }
  }

  lemma JobWorkersStep(y: System, e: Event)
    requires SystemOk(y) && JobsOk(y) && Can(y, e) && Confirmed(y, e) && Patient(y, e) && Rooted(y.db)
    requires Later(y.db, After(y, e).db)
    ensures forall w :: w in After(y, e).workers ==> JobWorkerOk(After(y, e), After(y, e).workers[w])
  {
    forall w | w in After(y, e).workers
      ensures JobWorkerOk(After(y, e), After(y, e).workers[w])
    {
      JobWorkerStep(y, e, w);
    }
  }

  /** A message leaves the pending list only by an ack. */
  lemma StaysAvailable(y: System, e: Event, m: nat)
    requires Can(y, e) && Available(y, m) && !(e.Ack? && y.workers[e.w].msg == m)
    ensures Available(After(y, e), m)
  {
  }

  lemma JobKeptStep(y: System, e: Event, m: nat)
    requires SystemOk(y) && JobsOk(y) && Can(y, e) && Later(y.db, After(y, e).db)
    ensures JobKept(After(y, e), m)
  {
    var z := After(y, e);
    if m in z.published && m !in y.published {
      assert m in z.undelivered;
    } else if m in z.published {
      assert JobKept(y, m);
      if Done(y.db, m) {
        DoneStays(y.db, z.db, m);
      } else {
        assert e.Ack? ==> JobWorkerOk(y, y.workers[e.w]);
        StaysAvailable(y, e, m);
      }
    }
  }

  lemma JobsStep(y: System, e: Event)
    requires SystemOk(y) && JobsOk(y) && Can(y, e) && Confirmed(y, e) && Patient(y, e)
    ensures JobsOk(After(y, e))
  {
    StoreStep(y, e);
    JobWorkersStep(y, e);
    forall m
      ensures JobKept(After(y, e), m)
    {
      JobKeptStep(y, e, m);
    }
  }

  lemma {:induction false} JobsRun(r: Rules, y: System, events: seq<Event>)
    requires r.confirmed && r.patient && SystemOk(y) && JobsOk(y) && Allowed(r, y, events)
    ensures JobsOk(Behave(r, y, events)) && SystemOk(Behave(r, y, events))
    decreases |events|
  {
    if events != [] {
      SystemStep(y, events[0]);
      JobsStep(y, events[0]);
      JobsRun(r, After(y, events[0]), events[1..]);
    }
  }

  /** The message of a published shard that is not finished is gone. */
  ghost predicate Lost(y: System, m: nat) {
    m in y.published && !Available(y, m) && !Done(y.db, m)
  }

  /**
   No lost job, whatever crashes, losses and races happen: if dead-letter acks follow a
   confirmed FailShard and no message is reclaimed before its first start is resolved,
   then a published shard that is not finished has its message undelivered or pending.
   */
  lemma NoJobLost(r: Rules, cfg: Config, cap: int, y: System, m: nat)
    requires r.confirmed && r.patient && Reaches(r, Start(cfg, cap), y)
    ensures !Lost(y, m)
  {
    var events: seq<Event> :| Allowed(r, Start(cfg, cap), events) && y == Behave(r, Start(cfg, cap), events);
    StartOk(cfg, cap);
    JobsRun(r, Start(cfg, cap), events);
    assert JobKept(y, m);
  }
}
