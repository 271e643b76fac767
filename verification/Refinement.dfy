/** Handling a message from start to end is a behaviour of the composed system. */
module Refinement {
  import opened Wrappers
  import opened Tables
  import opened Database
  import opened Broker
  import opened Dispatch
  import opened Conditions
  import W = Worker

  const NONE := Rules(false, false, false, false)

  lemma OneMore(y: System, z: System, e: Event)
    requires Reaches(NONE, y, z) && Can(z, e)
    ensures Reaches(NONE, y, After(z, e))
  {
    ReachesOn(NONE, y, z, e);
  }

  /** The system after some heartbeats of an executing worker. */
  function Beaten(y: System, w: nat, beats: nat): System
    requires w in y.workers && y.workers[w].Executing?
  {
    if beats == 0 then y
    else
      var wk := y.workers[w];
      y.(pending := Refresh(y.pending, w, wk.msg), workers := y.workers[w := Executing(wk.msg, 0, wk.rest)])
  }

  lemma BeatOnce(y: System, z: System, w: nat)
    requires Reaches(NONE, y, z) && w in z.workers && z.workers[w].Executing?
    ensures Reaches(NONE, y, Beaten(z, w, 1))
  {
    OneMore(y, z, Beat(w));
    assert After(z, Beat(w)) == Beaten(z, w, 1);
  }

  lemma BeatenTwice(y: System, w: nat)
    requires w in y.workers && y.workers[w].Executing?
    ensures Beaten(Beaten(y, w, 1), w, 1) == Beaten(y, w, 1)
  {
    var m := y.workers[w].msg;
    assert Refresh(Refresh(y.pending, w, m), w, m) == Refresh(y.pending, w, m);
  }

  lemma {:induction false} Beats(y: System, z: System, w: nat, beats: nat)
    requires Reaches(NONE, y, z) && w in z.workers && z.workers[w].Executing?
    ensures Reaches(NONE, y, Beaten(z, w, beats))
    decreases beats
  {
    if beats != 0 {
      Beats(y, z, w, beats - 1);
      BeatOnce(y, Beaten(z, w, beats - 1), w);
      BeatenTwice(z, w);
    }
  }

  /** The answer to a worker's call, as its handling was given it. */
  ghost predicate AnswerIs(s: State, sid: nat, answer: Option<Reply>) {
    answer.Some? ==> sid in s.replies && s.replies[sid].reply == answer.value
  }

  /** The worker moves on with the answer, or gives up on it. */
  lemma Hear(y: System, z: System, w: nat, answer: Option<Reply>)
    requires Reaches(NONE, y, z) && Awaiting(z, w) && AnswerIs(z.db, z.workers[w].sid, answer)
    ensures Reaches(NONE, y, To(z, w, AfterReply(z.workers[w], answer.GetOr(DbError))))
  {
    OneMore(y, z, if answer.Some? then Answered(w) else GiveUp(w));
  }

  /** An acknowledgement, or its loss, ends the handling. */
  lemma EndWithAck(y: System, z: System, w: nat, arrives: bool)
    requires Reaches(NONE, y, z) && w in z.workers && z.workers[w].Acking?
    ensures Reaches(NONE, y, To(if arrives then Acked(z, z.workers[w].msg) else z, w, Looping(z.workers[w].rest)))
  {
    OneMore(y, z, if arrives then Dispatch.Ack(w) else AckLost(w));
  }

  /** The system when an assigned worker has sent its report. */
  function Reported(y: System, w: nat, beats: nat, sid: nat, report: Report): System
    requires w in y.workers && y.workers[w].Starting?
  {
    var m, rest := y.workers[w].msg, y.workers[w].rest;
    To(Calling(Beaten(To(y, w, Executing(m, 0, rest)), w, beats), sid, CompleteShard(m, report)), w, Reporting(m, sid, 0, rest))
  }

  lemma ReportReached(y: System, w: nat, ans: W.Answers, sid: nat, report: Report)
    requires w in y.workers && y.workers[w].Starting? && AnswerIs(y.db, y.workers[w].sid, ans.claim)
    requires W.Assigns(ans.claim) && Unused(y, sid)
    ensures Reaches(NONE, y, Reported(y, w, ans.beats, sid, report))
  {
    ReachesSelf(NONE, y);
    Hear(y, y, w, ans.claim);
    var a := To(y, w, Executing(y.workers[w].msg, 0, y.workers[w].rest));
    Beats(y, a, w, ans.beats);
    OneMore(y, Beaten(a, w, ans.beats), Finish(w, sid, report));
    assert After(Beaten(a, w, ans.beats), Finish(w, sid, report)) == Reported(y, w, ans.beats, sid, report);
  }

  /** The system at the end of a handling, in which the store has meanwhile reached db. */
  function HandledSystem(y: System, w: nat, ans: W.Answers, db: State): System
    requires w in y.workers && y.workers[w].Starting?
  {
    y.(db := db, pending := W.Handled(y.pending, w, y.workers[w].msg, ans), workers := y.workers[w := Looping(y.workers[w].rest)])
  }

  lemma RefusedIsBehaviour(y: System, w: nat, ans: W.Answers)
    requires w in y.workers && y.workers[w].Starting? && AnswerIs(y.db, y.workers[w].sid, ans.claim)
    requires !W.Assigns(ans.claim)
    ensures Reaches(NONE, y, HandledSystem(y, w, ans, y.db))
  {
    ReachesSelf(NONE, y);
    Hear(y, y, w, ans.claim);
    var a := To(y, w, AfterReply(y.workers[w], ans.claim.GetOr(DbError)));
    if W.Refuses(ans.claim) {
      EndWithAck(y, a, w, ans.ackArrives);
    }
  }

  /** What the broker and the workers look like while a report is out. */
  lemma ReportedShape(y: System, w: nat, beats: nat, sid: nat, report: Report)
    requires w in y.workers && y.workers[w].Starting?
    ensures var wk, b := y.workers[w], Reported(y, w, beats, sid, report);
      && b.pending == (if beats == 0 then y.pending else Refresh(y.pending, w, wk.msg))
      && b == y.(db := b.db, pending := b.pending, workers := y.workers[w := Reporting(wk.msg, sid, 0, wk.rest)])
  {
  }

  lemma SettledShape(y: System, b: System, w: nat, ans: W.Answers, arrives: bool)
    requires w in y.workers && y.workers[w].Starting? && W.Assigns(ans.claim)
    requires ans.completion == Some(Ok) && arrives == ans.ackArrives
    requires b == y.(db := b.db, pending := b.pending, workers := y.workers[w := Acking(y.workers[w].msg, 0, y.workers[w].rest)])
    requires b.pending == if ans.beats == 0 then y.pending else Refresh(y.pending, w, y.workers[w].msg)
    ensures To(if arrives then Acked(b, y.workers[w].msg) else b, w, Looping(y.workers[w].rest)) == HandledSystem(y, w, ans, b.db)
  {
    assert Remove(Refresh(y.pending, w, y.workers[w].msg), y.workers[w].msg) == Remove(y.pending, y.workers[w].msg);
  }

  lemma AssignedIsBehaviour(y: System, w: nat, ans: W.Answers, sid: nat, report: Report, db: State)
    requires w in y.workers && y.workers[w].Starting? && W.Assigns(ans.claim)
    requires Reaches(NONE, y, Reported(y, w, ans.beats, sid, report).(db := db)) && AnswerIs(db, sid, ans.completion)
    ensures Reaches(NONE, y, HandledSystem(y, w, ans, db))
  {
    var m, b := y.workers[w].msg, Reported(y, w, ans.beats, sid, report).(db := db);
    ReportedShape(y, w, ans.beats, sid, report);
    Hear(y, b, w, ans.completion);
    if ans.completion == Some(Ok) {
      var c := To(b, w, Acking(m, 0, y.workers[w].rest));
      EndWithAck(y, c, w, ans.ackArrives);
      SettledShape(y, c, w, ans, ans.ackArrives);
    }
  }

  /**
   Every handling is a behaviour: from a worker waiting for its claim the composed system can
   go on as HandleMessage does, the store taking its own steps while the report is out, to
   the pending list that HandleMessage leaves.
   */
  lemma HandlingIsBehaviour(y: System, w: nat, ans: W.Answers, sid: nat, report: Report, between: seq<Event>)
    requires w in y.workers && y.workers[w].Starting? && AnswerIs(y.db, y.workers[w].sid, ans.claim)
    requires W.Assigns(ans.claim) ==>
      var b := Reported(y, w, ans.beats, sid, report);
      && Unused(y, sid) && Allowed(NONE, b, between) && (forall i :: 0 <= i < |between| ==> between[i].Store?)
      && AnswerIs(Behave(NONE, b, between).db, sid, ans.completion)
    ensures exists db: State :: Reaches(NONE, y, HandledSystem(y, w, ans, db))
  {
    if W.Assigns(ans.claim) {
      var b := Reported(y, w, ans.beats, sid, report);
      ReportReached(y, w, ans, sid, report);
      ReachesAll(NONE, y, b, between);
      StoreOnly(b, between);
      AssignedIsBehaviour(y, w, ans, sid, report, Behave(NONE, b, between).db);
    } else {
      RefusedIsBehaviour(y, w, ans);
    }
  }

  /** The store's own steps touch neither broker nor workers. */
  lemma {:induction false} StoreOnly(y: System, events: seq<Event>)
    requires Allowed(NONE, y, events) && forall i :: 0 <= i < |events| ==> events[i].Store?
    ensures Behave(NONE, y, events) == y.(db := Behave(NONE, y, events).db)
    decreases |events|
  {
    if events != [] {
      StoreOnly(After(y, events[0]), events[1..]);
    }
  }
}
