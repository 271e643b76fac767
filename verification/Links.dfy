/**
 What workers and store know of each other in the composed system: each worker
 waits for the call it made, executes only what it was assigned, and nobody has
 started a shard whose message was never delivered.
 */
module Links {
  import opened Wrappers
  import opened Tables
  import opened Database
  import opened Lifecycle
  import opened Barrier
  import opened Safety
  import opened Protocol
  import opened Calls
  import opened Dispatch
  import opened Conditions
  import opened Lease
  import opened Theorems

  // ---- The store's part in an event ----

  /** The action an event makes the store take. */
  function StoreAction(y: System, e: Event): Option<Action>
    requires e.Reclaim? || e.DeadLetter? ==> AtEntry(y, e.w)
    requires e.Finish? ==> e.w in y.workers && y.workers[e.w].Executing?
  {
    match e
    case Store(a) => Some(a)
    case Deliver(_, m, sid) => Some(Open(sid, StartShard(m)))
    case Reclaim(w, sid) => Some(Open(sid, TakeOverShard(Head(y, w).msg)))
    case DeadLetter(w, sid) => Some(Open(sid, FailShard(Head(y, w).msg, REASON)))
    case Finish(w, sid, report) => Some(Open(sid, CompleteShard(y.workers[w].msg, report)))
    case _ => None
  }

  lemma StoreEffect(y: System, e: Event)
    requires Can(y, e) && Rooted(y.db)
    ensures match StoreAction(y, e)
      case Some(a) => Enabled(y.db, a) && After(y, e).db == Apply(y.db, a)
      case None => After(y, e).db == y.db
  {
  }

  // ---- The invariant ----

  /** The message has been published and delivered. */
  ghost predicate Known(y: System, m: nat) {
    m in y.published && m !in y.undelivered
  }

  /** The call a worker in this phase is waiting for. */
  ghost predicate Concerns(call: Call, wk: Worker) {
    match wk
    case Starting(m, reclaimed, _, _, _) => call == if reclaimed then TakeOverShard(m) else StartShard(m)
    case Reporting(m, _, _, _) => call.CompleteShard? && call.shard == m
    case Failing(m, _, _) => call.FailShard? && call.shard == m
    case _ => false
  }

  /** The call exists; an answer to it is apt, and is not "not found". */
  ghost predicate Pursued(s: State, wk: Worker)
    requires wk.Starting? || wk.Reporting? || wk.Failing?
  {
    || (wk.sid in s.sessions && Concerns(s.sessions[wk.sid].call, wk))
    || (wk.sid in s.replies && Concerns(s.replies[wk.sid].call, wk) && !s.replies[wk.sid].reply.NotFound?
        && Apt(s.replies[wk.sid].call, s.replies[wk.sid].reply))
  }

  ghost predicate WorkerOk(y: System, wk: Worker) {
    && (forall i :: 0 <= i < |wk.rest| ==> Known(y, wk.rest[i].msg))
    && (!wk.Looping? ==> Known(y, wk.msg))
    && (wk.Starting? || wk.Reporting? || wk.Failing? ==> Pursued(y.db, wk))
    && (wk.Executing? ==> Assigned(y.db, wk.msg))
  }

  ghost predicate WorkersOk(y: System) {
    forall w :: w in y.workers ==> WorkerOk(y, y.workers[w])
  }

  /** Nobody has started the shard of an undelivered message. */
  ghost predicate Untouched(y: System) {
    forall m, sid :: !Known(y, m) ==> !StartsOn(y.db, sid, m)
  }

  ghost predicate SystemOk(y: System) {
    && Inv(y.db) && ProtocolOk(y.db)
    && MessagesKnown(y) && (forall m :: m in y.published ==> m < |y.db.shards|)
    && WorkersOk(y) && Untouched(y)
  }

  lemma StartOk(cfg: Config, cap: int)
    ensures SystemOk(Start(cfg, cap))
  {
  }

  // ---- Preservation ----

  lemma KnownStays(y: System, e: Event, m: nat)
    requires Can(y, e) && Known(y, m)
    ensures Known(After(y, e), m)
  {
  }

  /** What a worker relies on survives every step of the store. */
  lemma WorkerKeeps(y: System, e: Event, wk: Worker)
    requires SystemOk(y) && Can(y, e) && WorkerOk(y, wk) && Carries(y.db, After(y, e).db)
    ensures WorkerOk(After(y, e), wk)
  {
    var z := After(y, e);
    forall i | 0 <= i < |wk.rest|
      ensures Known(z, wk.rest[i].msg)
    {
      KnownStays(y, e, wk.rest[i].msg);
    }
    if !wk.Looping? {
      KnownStays(y, e, wk.msg);
    }
    if wk.Executing? {
      AssignedStays(y.db, z.db, wk.msg);
    } else if wk.Starting? || wk.Reporting? || wk.Failing? {
      PursuedStays(y.db, z.db, wk);
    }
  }

  lemma AssignedStays(s: State, t: State, sh: nat)
    requires Carries(s, t) && Assigned(s, sh)
    ensures Assigned(t, sh)
  {
    var sid :| sid in s.replies && s.replies[sid].call.Starts() && s.replies[sid].call.shard == sh && s.replies[sid].reply.Ok?;
    assert sid in t.replies && t.replies[sid] == s.replies[sid];
  }

  lemma PursuedStays(s: State, t: State, wk: Worker)
    requires Carries(s, t) && (wk.Starting? || wk.Reporting? || wk.Failing?) && Pursued(s, wk) && wk.msg < |s.shards|
    ensures Pursued(t, wk)
  {
    if wk.sid in s.sessions {
      assert Continued(s, t, wk.sid);
    }
  }

  /** A worker that has just taken a message up waits for the call it has just made. */
  lemma TakesUpOk(y: System, e: Event)
    requires SystemOk(y) && Can(y, e) && TakesUp(e)
    ensures e.w in After(y, e).workers && WorkerOk(After(y, e), After(y, e).workers[e.w])
  {
    if e.Reclaim? {
      assert WorkerOk(y, y.workers[e.w]);
      assert Known(y, Head(y, e.w).msg);
    }
  }

  lemma LeavesOffOk(y: System, e: Event)
    requires SystemOk(y) && Can(y, e) && LeavesOff(e) && Carries(y.db, After(y, e).db)
    ensures e.w in After(y, e).workers && WorkerOk(After(y, e), After(y, e).workers[e.w])
  {
    var wk, z := After(y, e).workers[e.w], After(y, e);
    if e.Join? {
    } else if e.Scan? {
      assert forall i :: 0 <= i < |wk.rest| ==> Known(y, wk.rest[i].msg);
    } else {
      assert WorkerOk(y, y.workers[e.w]);
      assert wk.Looping? || wk.Discarding? || wk.Failing?;
    }
  }

  /** A worker starts executing only when the store's answer is an assignment. */
  lemma ProceedsOk(y: System, e: Event)
    requires SystemOk(y) && Can(y, e) && Proceeds(e) && Carries(y.db, After(y, e).db)
    ensures e.w in After(y, e).workers && WorkerOk(After(y, e), After(y, e).workers[e.w])
  {
    var wk := y.workers[e.w];
    WorkerKeeps(y, e, wk);
    if e.Answered? && wk.Starting? && y.db.replies[wk.sid].reply.Ok? {
      assert Assigned(y.db, wk.msg);
    }
  }

  lemma WorkerStep(y: System, e: Event, w: nat)
    requires SystemOk(y) && Can(y, e) && Carries(y.db, After(y, e).db) && w in After(y, e).workers
    ensures WorkerOk(After(y, e), After(y, e).workers[w])
  {
    if StepOf(e, w) {
      if TakesUp(e) {
        TakesUpOk(y, e);
      } else if LeavesOff(e) {
        LeavesOffOk(y, e);
      } else {
        ProceedsOk(y, e);
      }
    } else if e.Tick? {
      WorkerKeeps(y, e, y.workers[w]);
    } else {
      Bystander(y, e, w);
      WorkerKeeps(y, e, y.workers[w]);
    }
  }

  lemma WorkersStep(y: System, e: Event)
    requires SystemOk(y) && Can(y, e) && Carries(y.db, After(y, e).db)
    ensures WorkersOk(After(y, e))
  {
    forall w | w in After(y, e).workers
      ensures WorkerOk(After(y, e), After(y, e).workers[w])
    {
      WorkerStep(y, e, w);
    }
  }

  /** Only taking a message up starts its shard, and the message is then delivered. */
  lemma UntouchedStep(y: System, e: Event)
    requires SystemOk(y) && Can(y, e) && Rooted(y.db)
    ensures Untouched(After(y, e))
  {
    var z := After(y, e);
    StoreEffect(y, e);
    forall m, sid | !Known(z, m)
      ensures !StartsOn(z.db, sid, m)
    {
      if StartsOn(z.db, sid, m) {
        StartsFrom(y, e, sid, m);
        if StartsOn(y.db, sid, m) {
          KnownStays(y, e, m);
        } else {
          TakesUpOk(y, e);
        }
      }
    }
  }

  /** A start or take-over of shard m comes from taking message m up. */
  lemma StartsFrom(y: System, e: Event, sid: nat, m: nat)
    requires Can(y, e) && Rooted(y.db) && StartsOn(After(y, e).db, sid, m)
    ensures StartsOn(y.db, sid, m) || (TakesUp(e) && e.sid == sid && Takes(y, e, e.w, m))
  {
    StoreEffect(y, e);
    if StoreAction(y, e).Some? {
      ActionStarts(y.db, StoreAction(y, e).value, sid, m);
    }
  }

  /** Workers report only what they were assigned, so the store's discipline is kept. */
  lemma EventFollows(y: System, e: Event)
    requires SystemOk(y) && Can(y, e) && StoreAction(y, e).Some?
    ensures Follows(y.db, StoreAction(y, e).value)
  {
    if e.Finish? {
      assert WorkerOk(y, y.workers[e.w]);
    }
  }

  /** The store's side of an event. */
  lemma StoreStep(y: System, e: Event)
    requires SystemOk(y) && Can(y, e)
    ensures Rooted(y.db) && Inv(After(y, e).db) && ProtocolOk(After(y, e).db)
    ensures Carries(y.db, After(y, e).db) && Later(y.db, After(y, e).db)
  {
    InvRooted(y.db);
    StoreEffect(y, e);
    if StoreAction(y, e).Some? {
      var a := StoreAction(y, e).value;
      StepInv(y.db, a);
      EventFollows(y, e);
      ProtocolStep(y.db, a);
      ActionCarries(y.db, a);
    } else {
      LaterRefl(y.db);
    }
  }

  lemma PublishedExist(y: System, e: Event)
    requires SystemOk(y) && Can(y, e) && Later(y.db, After(y, e).db)
    ensures forall m :: m in After(y, e).published ==> m < |After(y, e).db.shards|
  {
  }

  lemma SystemStep(y: System, e: Event)
    requires SystemOk(y) && Can(y, e)
    ensures SystemOk(After(y, e)) && Later(y.db, After(y, e).db)
  {
    StoreStep(y, e);
    KnownStep(y, e);
    PublishedExist(y, e);
    WorkersStep(y, e);
    UntouchedStep(y, e);
  }

  lemma {:induction false} SystemRunOk(r: Rules, y: System, events: seq<Event>)
    requires SystemOk(y) && Allowed(r, y, events)
    ensures SystemOk(Behave(r, y, events)) && Later(y.db, Behave(r, y, events).db)
    decreases |events|
  {
    if events == [] {
      LaterRefl(y.db);
    } else {
      SystemStep(y, events[0]);
      SystemRunOk(r, After(y, events[0]), events[1..]);
      LaterTrans(y.db, After(y, events[0]).db, Behave(r, y, events).db);
    }
  }

  lemma ReachableSystem(r: Rules, cfg: Config, cap: int, y: System)
    requires Reaches(r, Start(cfg, cap), y)
    ensures SystemOk(y)
  {
    var events: seq<Event> :| Allowed(r, Start(cfg, cap), events) && y == Behave(r, Start(cfg, cap), events);
    StartOk(cfg, cap);
    SystemRunOk(r, Start(cfg, cap), events);
  }

  // ---- Hung runs in the composed system ----

  /**
   Workers follow the store's discipline by construction, so in every state of the
   composed system a run hung after all its shards finished was fired, and all its shards
   were finished, by dead-lettering.
   */
  lemma HungOnlyByDeadLetter(r: Rules, cfg: Config, cap: int, y: System, run: nat)
    requires Reaches(r, Start(cfg, cap), y)
    requires run < |y.db.runs| && run !in y.db.overridden && Hung(y.db, run)
    ensures run < |y.db.fired| && DeadLettered(y.db, run)
  {
    ReachableSystem(r, cfg, cap, y);
    assert RunOk(y.db, run);
  }
}
