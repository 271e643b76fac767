/**
 What each step of a worker does in the composed system, said of the answers, the scan
 lines and the pending entries themselves: which claim follows which delivery, which
 answers are acked, when a message is dead-lettered and when it is taken over.
 */
module WorkerSteps {
  import opened Wrappers
  import opened Tables
  import opened Database
  import opened Broker
  import opened Dispatch

  /** Only worker w has moved, and the store and the broker are as they were. */
  ghost predicate WorkerOnly(y: System, z: System, w: nat) {
    w in z.workers && z == y.(workers := y.workers[w := z.workers[w]])
  }

  /** The store has received this call and nothing else has happened to it. */
  ghost predicate Receives(s: State, t: State, sid: nat, call: Call) {
    t == s.(sessions := s.sessions[sid := Waiting(call)])
  }

  /** A first delivery makes the message pending with count one, and its worker asks to start the shard. */
  lemma DeliverStep(y: System, w: nat, m: nat, sid: nat)
    requires Can(y, Deliver(w, m, sid))
    ensures var z := After(y, Deliver(w, m, sid));
      && m in y.undelivered && z.undelivered == y.undelivered - {m} && z.pending == y.pending[m := Entry(w, 0, 1)]
      && z.workers == y.workers[w := Starting(m, false, sid, 0, [])] && Receives(y.db, z.db, sid, StartShard(m))
  {
  }

  /**
   A scanned message that is within its limit and still idle long enough can be taken over: it is
   pending for this worker with one more delivery, and the worker asks to take its shard over.
   */
  lemma ReclaimStep(y: System, w: nat, sid: nat, m: nat, count: nat, rest: seq<Scanned>)
    requires w in y.workers && y.workers[w] == Looping([Scanned(m, count)] + rest)
    requires sid !in y.db.sessions && sid !in y.db.replies
    ensures Can(y, Reclaim(w, sid)) <==> count <= y.cfg.maxDeliveries && m in y.pending && y.cfg.minIdle <= y.pending[m].idle
    ensures Can(y, Reclaim(w, sid)) ==>
      var z := After(y, Reclaim(w, sid));
      && z.pending == y.pending[m := Entry(w, 0, y.pending[m].count + 1)] && z.undelivered == y.undelivered
      && z.workers == y.workers[w := Starting(m, true, sid, 0, rest)] && Receives(y.db, z.db, sid, TakeOverShard(m))
  {
    var list := [Scanned(m, count)] + rest;
    assert list[1..] == rest;
  }

  /** A scanned message past its limit is dead-lettered: its worker asks for the shard to be failed. */
  lemma DeadLetterStep(y: System, w: nat, sid: nat, m: nat, count: nat, rest: seq<Scanned>)
    requires w in y.workers && y.workers[w] == Looping([Scanned(m, count)] + rest)
    requires sid !in y.db.sessions && sid !in y.db.replies
    ensures Can(y, DeadLetter(w, sid)) <==> y.cfg.maxDeliveries < count
    ensures Can(y, DeadLetter(w, sid)) ==>
      var z := After(y, DeadLetter(w, sid));
      && z.pending == y.pending && z.undelivered == y.undelivered
      && z.workers == y.workers[w := Failing(m, sid, rest)]
      && Receives(y.db, z.db, sid, FailShard(m, "dead-lettered after too many delivery attempts"))
  {
    var list := [Scanned(m, count)] + rest;
    assert list[1..] == rest;
  }

  /** A delivery or a claim whose answer is lost still counts; nobody works on the message. */
  lemma DeliveryLost(y: System, w: nat, m: nat)
    ensures Can(y, DeliverLost(m, w)) <==> w in y.workers && y.workers[w] == Looping([]) && m in y.undelivered
    ensures Can(y, DeliverLost(m, w)) ==>
      After(y, DeliverLost(m, w)) == y.(undelivered := y.undelivered - {m}, pending := y.pending[m := Entry(w, 0, 1)])
  {
  }

  lemma ClaimLost(y: System, w: nat, m: nat, count: nat, rest: seq<Scanned>)
    requires w in y.workers && y.workers[w] == Looping([Scanned(m, count)] + rest)
    ensures Can(y, ReclaimLost(w)) <==> count <= y.cfg.maxDeliveries && m in y.pending && y.cfg.minIdle <= y.pending[m].idle
    ensures Can(y, ReclaimLost(w)) ==>
      After(y, ReclaimLost(w)) ==
        y.(pending := y.pending[m := Entry(w, 0, y.pending[m].count + 1)], workers := y.workers[w := Looping(rest)])
  {
    var list := [Scanned(m, count)] + rest;
    assert list[1..] == rest;
  }

  /** A claim may fail before it has any effect; a dead-letter may find no shard to fail and is acked all the same. */
  lemma LineWithoutCall(y: System, w: nat, m: nat, count: nat, rest: seq<Scanned>)
    requires w in y.workers && y.workers[w] == Looping([Scanned(m, count)] + rest)
    ensures Can(y, Skip(w)) <==> count <= y.cfg.maxDeliveries
    ensures Can(y, Skip(w)) ==> After(y, Skip(w)) == y.(workers := y.workers[w := Looping(rest)])
    ensures Can(y, DeadLetterBlind(w)) <==> y.cfg.maxDeliveries < count
    ensures Can(y, DeadLetterBlind(w)) ==> After(y, DeadLetterBlind(w)) == y.(workers := y.workers[w := Discarding(m, rest)])
  {
    var list := [Scanned(m, count)] + rest;
    assert list[1..] == rest;
  }

  /** A waiting worker may scan entries idle for the threshold, with their current counts. */
  lemma ScanStep(y: System, w: nat, list: seq<Scanned>)
    ensures Can(y, Scan(w, list)) <==>
      (&& w in y.workers && y.workers[w] == Looping([])
       && forall i :: 0 <= i < |list| ==>
            list[i].msg in y.pending && y.cfg.minIdle <= y.pending[list[i].msg].idle && list[i].count == y.pending[list[i].msg].count)
    ensures Can(y, Scan(w, list)) ==> After(y, Scan(w, list)) == y.(workers := y.workers[w := Looping(list)])
  {
  }

  /** Workers may crash at any point and come back with nothing in hand; time may always pass. */
  lemma CrashAndJoin(y: System, w: nat)
    ensures Can(y, Crash(w)) <==> w in y.workers
    ensures Can(y, Crash(w)) ==> After(y, Crash(w)) == y.(workers := y.workers - {w})
    ensures Can(y, Join(w)) <==> w !in y.workers
    ensures Can(y, Join(w)) ==> After(y, Join(w)) == y.(workers := y.workers[w := Looping([])])
    ensures Can(y, Tick)
  {
  }

  /** A claim is answered: an assignment is executed, a refusal acked, and an error leaves the message pending. */
  lemma ClaimHeard(y: System, w: nat)
    requires w in y.workers && y.workers[w].Starting? && y.workers[w].sid in y.db.replies
    ensures Can(y, Answered(w)) && WorkerOnly(y, After(y, Answered(w)), w)
    ensures var wk, next := y.workers[w], After(y, Answered(w)).workers[w];
      match y.db.replies[wk.sid].reply
      case Ok => next == Executing(wk.msg, 0, wk.rest)
      case NotQueued => next == Acking(wk.msg, 0, wk.rest)
      case AlreadyDone => next == Acking(wk.msg, 0, wk.rest)
      case NotFound => next == Acking(wk.msg, 0, wk.rest)
      case _ => next == Looping(wk.rest)
  {
  }

  /** A report is acked if it was accepted, and left pending otherwise. */
  lemma ReportHeard(y: System, w: nat)
    requires w in y.workers && y.workers[w].Reporting? && y.workers[w].sid in y.db.replies
    ensures Can(y, Answered(w)) && WorkerOnly(y, After(y, Answered(w)), w)
    ensures var wk, next := y.workers[w], After(y, Answered(w)).workers[w];
      next == if y.db.replies[wk.sid].reply == Ok then Acking(wk.msg, wk.clock, wk.rest) else Looping(wk.rest)
  {
  }

  /** A dead-letter is acked whatever FailShard answered. */
  lemma FailureHeard(y: System, w: nat)
    requires w in y.workers && y.workers[w].Failing? && y.workers[w].sid in y.db.replies
    ensures Can(y, Answered(w)) && WorkerOnly(y, After(y, Answered(w)), w)
    ensures After(y, Answered(w)).workers[w] == Discarding(y.workers[w].msg, y.workers[w].rest)
  {
  }

  /** An unanswered claim or report leaves the message pending; an unanswered dead-letter is acked all the same. */
  lemma AnswerLost(y: System, w: nat)
    requires w in y.workers && (y.workers[w].Starting? || y.workers[w].Reporting? || y.workers[w].Failing?)
    ensures Can(y, GiveUp(w)) && WorkerOnly(y, After(y, GiveUp(w)), w)
    ensures After(y, GiveUp(w)).workers[w] ==
      if y.workers[w].Failing? then Discarding(y.workers[w].msg, y.workers[w].rest) else Looping(y.workers[w].rest)
  {
  }

  /** An executing worker may report at any time; the report goes to the store under its own shard. */
  lemma FinishStep(y: System, w: nat, sid: nat, report: Report)
    requires w in y.workers && y.workers[w].Executing? && sid !in y.db.sessions && sid !in y.db.replies
    ensures Can(y, Finish(w, sid, report))
    ensures var m, z := y.workers[w].msg, After(y, Finish(w, sid, report));
      && z.pending == y.pending && z.undelivered == y.undelivered
      && z.workers == y.workers[w := Reporting(m, sid, 0, y.workers[w].rest)]
      && Receives(y.db, z.db, sid, CompleteShard(m, report))
  {
  }

  /** A heartbeat makes the worker the owner again and resets the idle time; the count stays, and an acked message stays gone. */
  lemma BeatStep(y: System, w: nat)
    requires w in y.workers && y.workers[w].Executing?
    ensures Can(y, Beat(w))
    ensures var m, z := y.workers[w].msg, After(y, Beat(w));
      && z.pending == (if m in y.pending then y.pending[m := Entry(w, 0, y.pending[m].count)] else y.pending)
      && z == y.(pending := z.pending, workers := y.workers[w := Executing(m, 0, y.workers[w].rest)])
  {
  }

  /** An ack removes the message unless it is lost, and the worker goes on with its scan. */
  lemma AckStep(y: System, w: nat)
    requires w in y.workers && (y.workers[w].Acking? || y.workers[w].Discarding?)
    ensures Can(y, Ack(w))
    ensures After(y, Ack(w)) ==
      y.(pending := y.pending - {y.workers[w].msg}, workers := y.workers[w := Looping(y.workers[w].rest)])
    ensures Can(y, AckLost(w)) && After(y, AckLost(w)) == y.(workers := y.workers[w := Looping(y.workers[w].rest)])
  {
  }

  /** A tick ages every pending entry by one and changes no owner or count. */
  lemma TickStep(y: System, m: nat)
    ensures var z := After(y, Tick);
      && (m in z.pending <==> m in y.pending) && z.undelivered == y.undelivered && z.db == y.db
      && (m in y.pending ==> z.pending[m] == Entry(y.pending[m].owner, y.pending[m].idle + 1, y.pending[m].count))
  {
  }
}
