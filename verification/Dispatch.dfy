/**
 The store, the message broker and the workers together
 (worker/cmd/worker/main.go). A shard's message is identified with the shard's id;
 the broker is a consumer group with a pending list. Workers may crash at any point,
 a request may be lost in either direction, and time passes in ticks.
 */
module Dispatch {
  import opened Tables
  import opened Database
  import opened Broker

  /**
   What a live worker is doing. `rest` is what remains of its last pending scan;
   `clock` counts ticks since the phase began, or since the last heartbeat.
   */
  datatype Worker =
    | Looping(rest: seq<Scanned>)
    | Starting(msg: nat, reclaimed: bool, sid: nat, clock: nat, rest: seq<Scanned>)
    | Executing(msg: nat, clock: nat, rest: seq<Scanned>)
    | Reporting(msg: nat, sid: nat, clock: nat, rest: seq<Scanned>)
    | Acking(msg: nat, clock: nat, rest: seq<Scanned>)
    | Failing(msg: nat, sid: nat, rest: seq<Scanned>)
    | Discarding(msg: nat, rest: seq<Scanned>)
  {
    /** Working on msg as its consumer, as opposed to dead-lettering it. */
    predicate Handles(m: nat) {
      (Starting? || Executing? || Reporting? || Acking?) && msg == m
    }

    function Ticked(): Worker {
      match this
      case Starting(m, reclaimed, sid, clock, rest) => Starting(m, reclaimed, sid, clock + 1, rest)
      case Executing(m, clock, rest) => Executing(m, clock + 1, rest)
      case Reporting(m, sid, clock, rest) => Reporting(m, sid, clock + 1, rest)
      case Acking(m, clock, rest) => Acking(m, clock + 1, rest)
      case _ => this
    }
  }

  /** Reclaim threshold and delivery limit, and the latency bounds the lease argument assumes. */
  datatype Config = Config(minIdle: nat, maxDeliveries: nat, startBound: nat, beatBound: nat, finishBound: nat)

  datatype System = System(
    cfg: Config,
    db: State,
    published: set<nat>,
    undelivered: set<nat>,
    pending: Pending,
    workers: map<nat, Worker>,
    handled: map<nat, nat>)      // history: how often each message was handed to a handler

  datatype Event =
    | Store(action: Action)
    | Publish(msg: nat)
    | Join(w: nat)
    | Crash(w: nat)
    | Deliver(w: nat, msg: nat, sid: nat)
    | DeliverLost(msg: nat, w: nat)
    | Scan(w: nat, list: seq<Scanned>)
    | Reclaim(w: nat, sid: nat)
    | ReclaimLost(w: nat)
    | Skip(w: nat)
    | DeadLetter(w: nat, sid: nat)
    | DeadLetterBlind(w: nat)
    | Answered(w: nat)
    | GiveUp(w: nat)
    | Beat(w: nat)
    | Finish(w: nat, sid: nat, report: Report)
    | Ack(w: nat)
    | AckLost(w: nat)
    | Tick

  const REASON := "dead-lettered after too many delivery attempts"

  function Start(cfg: Config, cap: int): System {
    System(cfg, Init(cap), {}, {}, map[], map[], map[])
  }

  // ---- Broker commands ----

  function Delivered(y: System, w: nat, m: nat): System {
    y.(undelivered := y.undelivered - {m}, pending := Assign(y.pending, w, m))
  }

  function Claimed(y: System, w: nat, m: nat): System
    requires m in y.pending
  {
    y.(pending := Claim(y.pending, w, m))
  }

  function Refreshed(y: System, w: nat, m: nat): System {
    y.(pending := Refresh(y.pending, w, m))
  }

  function Acked(y: System, m: nat): System {
    y.(pending := Remove(y.pending, m))
  }

  predicate Stuck(y: System, m: nat) {
    IdleFor(y.pending, y.cfg.minIdle, m)
  }

  // ---- Workers ----

  function To(y: System, w: nat, wk: Worker): System {
    y.(workers := y.workers[w := wk])
  }

  function Calling(y: System, sid: nat, call: Call): System {
    y.(db := y.db.(sessions := y.db.sessions[sid := Waiting(call)]))
  }

  predicate Unused(y: System, sid: nat) {
    sid !in y.db.sessions && sid !in y.db.replies
  }

  predicate Live(y: System, w: nat) {
    w in y.workers
  }

  predicate Free(y: System, w: nat) {
    w in y.workers && y.workers[w] == Looping([])
  }

  predicate AtEntry(y: System, w: nat) {
    w in y.workers && y.workers[w].Looping? && y.workers[w].rest != []
  }

  function Head(y: System, w: nat): Scanned
    requires AtEntry(y, w)
  {
    y.workers[w].rest[0]
  }

  function Rest(y: System, w: nat): seq<Scanned>
    requires AtEntry(y, w)
  {
    y.workers[w].rest[1..]
  }

  predicate Awaiting(y: System, w: nat) {
    w in y.workers && (y.workers[w].Starting? || y.workers[w].Reporting? || y.workers[w].Failing?)
  }

  function HandledCount(y: System, m: nat): nat {
    if m in y.handled then y.handled[m] else 0
  }

  /** The entry is past its delivery limit, as far as the scan could tell. */
  predicate Poisoned(y: System, p: Scanned) { y.cfg.maxDeliveries < p.count }

  ghost predicate Can(y: System, e: Event) {
    match e
    case Store(a) => Enabled(y.db, a) && (a.Open? ==> !a.call.OnShard())
    case Publish(m) => m < |y.db.shards| && m !in y.published
    case Join(w) => w !in y.workers
    case Crash(w) => Live(y, w)
    case Deliver(w, m, sid) => Free(y, w) && m in y.undelivered && Unused(y, sid)
    case DeliverLost(m, w) => Free(y, w) && m in y.undelivered
    case Scan(w, list) =>
      Free(y, w) && forall i :: 0 <= i < |list| ==> Stuck(y, list[i].msg) && list[i].count == y.pending[list[i].msg].count
    case Reclaim(w, sid) => AtEntry(y, w) && !Poisoned(y, Head(y, w)) && Stuck(y, Head(y, w).msg) && Unused(y, sid)
    case ReclaimLost(w) => AtEntry(y, w) && !Poisoned(y, Head(y, w)) && Stuck(y, Head(y, w).msg)
    case Skip(w) => AtEntry(y, w) && !Poisoned(y, Head(y, w))
    case DeadLetter(w, sid) => AtEntry(y, w) && Poisoned(y, Head(y, w)) && Unused(y, sid)
    case DeadLetterBlind(w) => AtEntry(y, w) && Poisoned(y, Head(y, w))
    case Answered(w) => Awaiting(y, w) && y.workers[w].sid in y.db.replies
    case GiveUp(w) => Awaiting(y, w)
    case Beat(w) => Live(y, w) && (y.workers[w].Executing? || y.workers[w].Reporting?)
    case Finish(w, sid, _) => Live(y, w) && y.workers[w].Executing? && Unused(y, sid)
    case Ack(w) => Live(y, w) && (y.workers[w].Acking? || y.workers[w].Discarding?)
    case AckLost(w) => Live(y, w) && (y.workers[w].Acking? || y.workers[w].Discarding?)
    case Tick => true
  }

  /** How handleMessage and deadLetter read the outcome of a backend call. */
  function AfterReply(wk: Worker, reply: Reply): Worker
    requires wk.Starting? || wk.Reporting? || wk.Failing?
  {
    match wk
    case Starting(m, _, _, _, rest) =>
      if reply.Ok? then Executing(m, 0, rest)
      else if reply.NotQueued? || reply.AlreadyDone? || reply.NotFound? then Acking(m, 0, rest)
      else Looping(rest)
    case Reporting(m, _, clock, rest) => if reply.Ok? then Acking(m, clock, rest) else Looping(rest)
    case Failing(m, _, rest) => Discarding(m, rest)
  }

  function After(y: System, e: Event): System
    requires Can(y, e)
  {
    match e
    case Store(a) => y.(db := Apply(y.db, a))
    case Publish(m) => y.(published := y.published + {m}, undelivered := y.undelivered + {m})
    case Join(w) => To(y, w, Looping([]))
    case Crash(w) => y.(workers := y.workers - {w})
    case Deliver(w, m, sid) =>
      To(Calling(Delivered(y, w, m), sid, StartShard(m)), w, Starting(m, false, sid, 0, []))
        .(handled := y.handled[m := HandledCount(y, m) + 1])
    case DeliverLost(m, w) => Delivered(y, w, m)
    case Scan(w, list) => To(y, w, Looping(list))
    case Reclaim(w, sid) =>
      var m := Head(y, w).msg;
      To(Calling(Claimed(y, w, m), sid, TakeOverShard(m)), w, Starting(m, true, sid, 0, Rest(y, w)))
        .(handled := y.handled[m := HandledCount(y, m) + 1])
    case ReclaimLost(w) => To(Claimed(y, w, Head(y, w).msg), w, Looping(Rest(y, w)))
    case Skip(w) => To(y, w, Looping(Rest(y, w)))
    case DeadLetter(w, sid) =>
      var m := Head(y, w).msg;
      To(Calling(y, sid, FailShard(m, REASON)), w, Failing(m, sid, Rest(y, w)))
    case DeadLetterBlind(w) => To(y, w, Discarding(Head(y, w).msg, Rest(y, w)))
    case Answered(w) => To(y, w, AfterReply(y.workers[w], y.db.replies[y.workers[w].sid].reply))
    case GiveUp(w) => To(y, w, AfterReply(y.workers[w], DbError))
    case Beat(w) =>
      var wk := y.workers[w];
      To(Refreshed(y, w, wk.msg), w, if wk.Executing? then Executing(wk.msg, 0, wk.rest) else wk)
    case Finish(w, sid, report) =>
      var wk := y.workers[w];
      To(Calling(y, sid, CompleteShard(wk.msg, report)), w, Reporting(wk.msg, sid, 0, wk.rest))
    case Ack(w) => To(Acked(y, y.workers[w].msg), w, Looping(y.workers[w].rest))
    case AckLost(w) => To(y, w, Looping(y.workers[w].rest))
    case Tick =>
      y.(pending := Age(y.pending),
         workers := map w | w in y.workers :: y.workers[w].Ticked())
  }
}
