/**
 What a worker does with a message (worker/cmd/worker/main.go): claim its shard, keep
 the lease while executing, report, acknowledge; and the sweep that reclaims or
 dead-letters messages whose worker is presumed dead. The answers of the backend, the
 heartbeats that got through and the fate of each command are inputs.
 */
module Worker {
  import opened Wrappers
  import opened Tables
  import opened Stats
  import opened Aggregation
  import opened Database
  import opened Broker
  import Runner
  import D = Dispatch

  /** The surroundings of one handling: None stands for a failed request. */
  datatype Answers = Answers(
    claim: Option<Reply>, cfg: Runner.Config, schedule: seq<Runner.Step>, beats: nat,
    completion: Option<Reply>, ackArrives: bool)

  ghost predicate AnswersOk(ans: Answers) {
    Runner.ScheduleFor(ans.schedule, ans.cfg.virtualUsers)
  }

  /** What the client makes of a claim's answer: assigned, not claimable, or an error. */
  predicate Assigns(claim: Option<Reply>) { claim == Some(Ok) }

  predicate Refuses(claim: Option<Reply>) {
    claim == Some(NotQueued) || claim == Some(AlreadyDone) || claim == Some(NotFound)
  }

  // ---- Executing ----

  /**
   A shard that cannot start is reported failed, without numbers; one that ran is reported
   completed, with the tally of all its requests.
   */
  ghost predicate ReportsWork(report: Report, cfg: Runner.Config, schedule: seq<Runner.Step>) {
    && (report.completed <==> 0 < cfg.virtualUsers && cfg.targetURL != "")
    && (report.completed ==> report.error == None && report.partial == PartialOf(ResultOf(Fold(Runner.Events(schedule)))))
    && (!report.completed ==>
          && report.partial == NO_PARTIAL
          && report.error == Some(if cfg.virtualUsers <= 0 then "virtual users must be greater than 0"
                                  else "target URL must not be empty"))
  }

  method ExecuteShard(cfg: Runner.Config, schedule: seq<Runner.Step>) returns (report: Report)
    requires Runner.ScheduleFor(schedule, cfg.virtualUsers)
    ensures ReportsWork(report, cfg, schedule)
  {
    var outcome := Runner.Run(cfg, schedule);
    match outcome
    case BadConfig(message) =>
      report := Report(false, Some(message), NO_PARTIAL);
    case Finished(result) =>
      report := Report(true, None, PartialOf(result));
  }

  /** Two pending lists agree on a message. */
  ghost predicate SameEntry(a: Pending, b: Pending, m: nat) {
    (m in a <==> m in b) && (m in a ==> a[m] == b[m])
  }

  /** Two pending lists agree on every message but m. */
  ghost predicate SameOthers(a: Pending, b: Pending, m: nat) {
    forall x :: x != m ==> SameEntry(a, b, x)
  }

  /** However many heartbeats get through, the claim is the worker's and the counter has not moved. */
  method Heartbeat(rdb: ConsumerGroup, w: nat, m: nat, beats: nat)
    modifies rdb`pending
    ensures rdb.pending == if beats == 0 then old(rdb.pending) else Refresh(old(rdb.pending), w, m)
    ensures SameOthers(old(rdb.pending), rdb.pending, m) && (m in rdb.pending <==> m in old(rdb.pending))
    ensures m in rdb.pending ==>
      rdb.pending[m] == if beats == 0 then old(rdb.pending)[m] else Entry(w, 0, old(rdb.pending)[m].count)
  {
    for i := 0 to beats
      invariant rdb.pending == if i == 0 then old(rdb.pending) else Refresh(old(rdb.pending), w, m)
    {
      rdb.XClaimJustID(w, m);
    }
  }

  // ---- Handling one message ----

  /** The handling ends in an ack that arrives. */
  predicate Settles(ans: Answers) {
    ans.ackArrives && (Refuses(ans.claim) || (Assigns(ans.claim) && ans.completion == Some(Ok)))
  }

  /** The pending list after a handling: settled, refreshed, or as it was. */
  function Handled(pending: Pending, w: nat, m: nat, ans: Answers): Pending {
    if Settles(ans) then Remove(pending, m)
    else if Assigns(ans.claim) && 0 < ans.beats then Refresh(pending, w, m)
    else pending
  }

  method Ack(rdb: ConsumerGroup, m: nat, arrives: bool)
    modifies rdb`pending
    ensures rdb.pending == if arrives then Remove(old(rdb.pending), m) else old(rdb.pending)
  {
    if arrives {
      rdb.XAck(m);
    }
  }

  /** A reclaimed message takes its shard over, a first delivery starts it; only work that was assigned is reported. */
  method HandleMessage(rdb: ConsumerGroup, w: nat, m: nat, reclaimed: bool, ans: Answers)
    returns (claim: Call, report: Option<Report>)
    requires AnswersOk(ans)
    modifies rdb`pending
    ensures claim == if reclaimed then TakeOverShard(m) else StartShard(m)
    ensures report.Some? <==> ans.claim == Some(Ok)
    ensures report.Some? ==> ReportsWork(report.value, ans.cfg, ans.schedule)
    ensures rdb.pending == Handled(old(rdb.pending), w, m, ans)
    ensures SameOthers(old(rdb.pending), rdb.pending, m)
    ensures m in rdb.pending <==>
      (m in old(rdb.pending)
       && !(ans.ackArrives
            && (ans.claim == Some(NotQueued) || ans.claim == Some(AlreadyDone) || ans.claim == Some(NotFound)
                || (ans.claim == Some(Ok) && ans.completion == Some(Ok)))))
    ensures m in rdb.pending ==>
      rdb.pending[m] ==
        if ans.claim == Some(Ok) && 0 < ans.beats then Entry(w, 0, old(rdb.pending)[m].count) else old(rdb.pending)[m]
  {
    claim := if reclaimed then TakeOverShard(m) else StartShard(m);
    report := None;
    if Refuses(ans.claim) {
      Ack(rdb, m, ans.ackArrives);
      return;
    }
    if !Assigns(ans.claim) {
      return;
    }
    Heartbeat(rdb, w, m, ans.beats);
    var result := ExecuteShard(ans.cfg, ans.schedule);
    report := Some(result);
    if ans.completion != Some(Ok) {
      return;
    }
    Ack(rdb, m, ans.ackArrives);
  }

  // ---- Dead-lettering and reclaiming ----

  /** The original is acked whatever FailShard answered. */
  method DeadLetter(rdb: ConsumerGroup, m: nat, failed: Option<Reply>, ackArrives: bool) returns (call: Call)
    modifies rdb`pending
    ensures call == FailShard(m, "dead-lettered after too many delivery attempts")
    ensures rdb.pending == if ackArrives then old(rdb.pending) - {m} else old(rdb.pending)
  {
    call := FailShard(m, D.REASON);
    Ack(rdb, m, ackArrives);
  }

  /** What happens at one line of a scan: how the claim goes, and the handling or dead-lettering. */
  datatype Visit = Visit(claimArrives: bool, claimAnswered: bool, failed: Option<Reply>, ans: Answers)

  /** The pending list after one line of a scan. */
  function Visited(pending: Pending, w: nat, minIdle: nat, maxDeliveries: nat, p: Scanned, v: Visit): Pending {
    if maxDeliveries < p.count then (if v.ans.ackArrives then Remove(pending, p.msg) else pending)
    else if !v.claimArrives || !IdleFor(pending, minIdle, p.msg) then pending
    else if !v.claimAnswered then Claim(pending, w, p.msg)
    else Handled(Claim(pending, w, p.msg), w, p.msg, v.ans)
  }

  function Swept(pending: Pending, w: nat, minIdle: nat, maxDeliveries: nat, scan: seq<Scanned>, visits: seq<Visit>): Pending
    requires |scan| == |visits|
  {
    if scan == [] then pending
    else
      var n := |scan| - 1;
      Visited(Swept(pending, w, minIdle, maxDeliveries, scan[..n], visits[..n]), w, minIdle, maxDeliveries, scan[n], visits[n])
  }

  /**
   What one line of a scan must lead to. Past the limit: FailShard is sent and the message
   acked. Else, if the entry can still be claimed: a take-over, the report if it is assigned, and
   the message gone if that settles it, or held by this worker with one more delivery. Else nothing.
   */
  ghost predicate LineDone(
      before: Pending, after: Pending, w: nat, minIdle: nat, maxDeliveries: nat, p: Scanned, v: Visit, calls: seq<Call>)
  {
    var m, ans := p.msg, v.ans;
    if maxDeliveries < p.count then
      && calls == [FailShard(m, "dead-lettered after too many delivery attempts")]
      && if ans.ackArrives then m !in after else SameEntry(before, after, m)
    else if !v.claimArrives || m !in before || before[m].idle < minIdle then
      calls == [] && SameEntry(before, after, m)
    else if !v.claimAnswered then
      calls == [] && m in after && after[m] == Entry(w, 0, before[m].count + 1)
    else
      && (if ans.claim == Some(Ok) then
            && |calls| == 2 && calls[1].CompleteShard? && calls[1].shard == m
            && ReportsWork(calls[1].report, ans.cfg, ans.schedule)
          else |calls| == 1)
      && calls[0] == TakeOverShard(m)
      && if ans.ackArrives
            && (ans.claim == Some(NotQueued) || ans.claim == Some(AlreadyDone) || ans.claim == Some(NotFound)
                || (ans.claim == Some(Ok) && ans.completion == Some(Ok)))
         then m !in after
         else m in after && after[m] == Entry(w, 0, before[m].count + 1)
  }

  method VisitEntry(rdb: ConsumerGroup, w: nat, minIdle: nat, maxDeliveries: nat, p: Scanned, v: Visit)
    returns (calls: seq<Call>)
    requires AnswersOk(v.ans)
    modifies rdb`pending
    ensures rdb.pending == Visited(old(rdb.pending), w, minIdle, maxDeliveries, p, v)
    ensures LineDone(old(rdb.pending), rdb.pending, w, minIdle, maxDeliveries, p, v, calls)
    ensures SameOthers(old(rdb.pending), rdb.pending, p.msg)
  {
    calls := [];
    if p.count > maxDeliveries {
      var failure := DeadLetter(rdb, p.msg, v.failed, v.ans.ackArrives);
      return [failure];
    }
    if !v.claimArrives {
      return;
    }
    var claimed := rdb.XClaim(w, p.msg, minIdle);
    if claimed && v.claimAnswered {
      var claim, report := HandleMessage(rdb, w, p.msg, true, v.ans);
      calls := [claim] + if report.Some? then [CompleteShard(p.msg, report.value)] else [];
    }
  }

  /** Lines that do not concern the message change nothing about what is required of its own line. */
  lemma LineElsewhere(
      before: Pending, after: Pending, b: Pending, a: Pending, w: nat, minIdle: nat, maxDeliveries: nat, p: Scanned,
      v: Visit, calls: seq<Call>)
    requires LineDone(b, a, w, minIdle, maxDeliveries, p, v, calls)
    requires SameEntry(before, b, p.msg) && SameEntry(a, after, p.msg)
    ensures LineDone(before, after, w, minIdle, maxDeliveries, p, v, calls)
  {
  }

  ghost predicate Distinct(scan: seq<Scanned>) {
    forall i, j :: 0 <= i < j < |scan| ==> scan[i].msg != scan[j].msg
  }

  /**
   The sweep over one scan, uninterrupted by other consumers. Returns the calls made for each
   line; with distinct messages every line has its full effect, and no other entry is touched.
   */
  method ReclaimStuck(rdb: ConsumerGroup, w: nat, minIdle: nat, maxDeliveries: nat, scan: seq<Scanned>, visits: seq<Visit>)
    returns (calls: seq<seq<Call>>)
    requires |scan| == |visits| && forall i :: 0 <= i < |visits| ==> AnswersOk(visits[i].ans)
    modifies rdb`pending
    ensures rdb.pending == Swept(old(rdb.pending), w, minIdle, maxDeliveries, scan, visits)
    ensures |calls| == |scan|
    ensures Distinct(scan) ==>
      forall i :: 0 <= i < |scan| ==>
        LineDone(old(rdb.pending), rdb.pending, w, minIdle, maxDeliveries, scan[i], visits[i], calls[i])
    ensures forall m :: (forall i :: 0 <= i < |scan| ==> scan[i].msg != m) ==> SameEntry(old(rdb.pending), rdb.pending, m)
  {
    calls := [];
    for i := 0 to |scan|
      invariant rdb.pending == Swept(old(rdb.pending), w, minIdle, maxDeliveries, scan[..i], visits[..i])
      invariant |calls| == i
      invariant Distinct(scan) ==>
        forall k :: 0 <= k < i ==>
          LineDone(old(rdb.pending), rdb.pending, w, minIdle, maxDeliveries, scan[k], visits[k], calls[k])
    {
      ghost var before := rdb.pending;
      var made := VisitEntry(rdb, w, minIdle, maxDeliveries, scan[i], visits[i]);
      assert scan[..i + 1][..i] == scan[..i] && visits[..i + 1][..i] == visits[..i];
      if Distinct(scan) {
        forall k | 0 <= k < i
          ensures LineDone(old(rdb.pending), rdb.pending, w, minIdle, maxDeliveries, scan[k], visits[k], calls[k])
        {
          LineElsewhere(old(rdb.pending), rdb.pending, old(rdb.pending), before, w, minIdle, maxDeliveries,
                        scan[k], visits[k], calls[k]);
        }
        SweepFrame(old(rdb.pending), w, minIdle, maxDeliveries, scan[..i], visits[..i], scan[i].msg);
        LineElsewhere(old(rdb.pending), rdb.pending, before, rdb.pending, w, minIdle, maxDeliveries, scan[i], visits[i], made);
      }
      calls := calls + [made];
    }
    assert scan[..|scan|] == scan && visits[..|visits|] == visits;
    forall m | forall i :: 0 <= i < |scan| ==> scan[i].msg != m
      ensures SameEntry(old(rdb.pending), rdb.pending, m)
    {
      SweepFrame(old(rdb.pending), w, minIdle, maxDeliveries, scan, visits, m);
    }
  }

  // ---- The sweep treats every message by itself ----

  lemma {:induction false} SweepFrame(
      pending: Pending, w: nat, minIdle: nat, maxDeliveries: nat, scan: seq<Scanned>, visits: seq<Visit>, m: nat)
    requires |scan| == |visits| && forall i :: 0 <= i < |scan| ==> scan[i].msg != m
    ensures SameEntry(pending, Swept(pending, w, minIdle, maxDeliveries, scan, visits), m)
    decreases |scan|
  {
    if scan != [] {
      SweepFrame(pending, w, minIdle, maxDeliveries, scan[..|scan| - 1], visits[..|visits| - 1], m);
    }
  }

  lemma VisitAgrees(
      a: Pending, b: Pending, w: nat, minIdle: nat, maxDeliveries: nat, p: Scanned, v: Visit)
    requires SameEntry(a, b, p.msg)
    ensures SameEntry(Visited(a, w, minIdle, maxDeliveries, p, v), Visited(b, w, minIdle, maxDeliveries, p, v), p.msg)
  {
  }

  /**
   In a sweep nobody interrupts, what becomes of an entry does not depend on the entries
   before it: it is visited as if it had been the only one.
   */
  lemma {:induction false} SweepIndependent(
      pending: Pending, w: nat, minIdle: nat, maxDeliveries: nat, scan: seq<Scanned>, visits: seq<Visit>, i: nat)
    requires |scan| == |visits| && Distinct(scan) && i < |scan|
    ensures SameEntry(Swept(pending, w, minIdle, maxDeliveries, scan, visits),
                      Visited(pending, w, minIdle, maxDeliveries, scan[i], visits[i]), scan[i].msg)
    decreases |scan|
  {
    var n := |scan| - 1;
    if i == n {
      SweepFrame(pending, w, minIdle, maxDeliveries, scan[..n], visits[..n], scan[n].msg);
      VisitAgrees(Swept(pending, w, minIdle, maxDeliveries, scan[..n], visits[..n]), pending, w, minIdle, maxDeliveries, scan[n], visits[n]);
    } else {
      SweepIndependent(pending, w, minIdle, maxDeliveries, scan[..n], visits[..n], i);
    }
  }

  /** The scan lists entries that are stuck, each once, with its delivery count. */
  ghost predicate ScanOf(pending: Pending, minIdle: nat, scan: seq<Scanned>) {
    && Distinct(scan)
    && forall i :: 0 <= i < |scan| ==> IdleFor(pending, minIdle, scan[i].msg) && scan[i].count == pending[scan[i].msg].count
  }

  /**
   A sweep nobody interrupts takes no counter past maxDeliveries + 1, raises none by more
   than one, and removes a message only with an ack that was sent: because it was past its
   limit, refused as finished or missing, or completed.
   */
  lemma SweepBounds(
      pending: Pending, w: nat, minIdle: nat, maxDeliveries: nat, scan: seq<Scanned>, visits: seq<Visit>, m: nat)
    requires |scan| == |visits| && ScanOf(pending, minIdle, scan) && m in pending
    ensures var swept := Swept(pending, w, minIdle, maxDeliveries, scan, visits);
      && (m in swept ==> pending[m].count <= swept[m].count <= pending[m].count + 1)
      && (m in swept && pending[m].count < swept[m].count ==> swept[m].count <= maxDeliveries + 1)
      && (m !in swept ==> exists i :: 0 <= i < |scan| && scan[i].msg == m && visits[i].ans.ackArrives
                            && (maxDeliveries < pending[m].count || Settles(visits[i].ans)))
  {
    if i :| 0 <= i < |scan| && scan[i].msg == m {
      SweepIndependent(pending, w, minIdle, maxDeliveries, scan, visits, i);
    } else {
      SweepFrame(pending, w, minIdle, maxDeliveries, scan, visits, m);
    }
  }
}
