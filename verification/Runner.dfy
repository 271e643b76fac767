/**
 The load engine (worker/internal/runner/runner.go): one stats slot per virtual
 user, each written by one goroutine only, merged after all have finished. A
 schedule is one interleaving of the goroutines' record calls.
 */
module Runner {
  import opened Histogram
  import opened Stats

  datatype Step = Step(vu: nat, event: Event)

  datatype Config = Config(targetURL: string, virtualUsers: int)

  datatype Outcome = Finished(result: Result) | BadConfig(message: string)

  ghost predicate ScheduleFor(schedule: seq<Step>, n: int) {
    forall k :: 0 <= k < |schedule| ==> schedule[k].vu < n
  }

  /** All requests, in the order they were recorded. */
  function Events(schedule: seq<Step>): (es: seq<Event>)
    ensures |es| == |schedule|
  {
    if schedule == [] then [] else Events(schedule[..|schedule| - 1]) + [schedule[|schedule| - 1].event]
  }

  /** The requests one virtual user recorded, in its own order. */
  function EventsOf(schedule: seq<Step>, vu: nat): seq<Event> {
    if schedule == [] then []
    else
      var init, last := EventsOf(schedule[..|schedule| - 1], vu), schedule[|schedule| - 1];
      if last.vu == vu then init + [last.event] else init
  }

  /** The slots after a schedule, one shared-memory write at a time. */
  ghost function Slots(n: nat, schedule: seq<Step>): (ts: seq<Tally>)
    requires ScheduleFor(schedule, n)
    ensures |ts| == n && forall i :: 0 <= i < n ==> |ts[i].buckets| == NUM_BUCKETS
  {
    if schedule == [] then seq(n, _ => EMPTY)
    else
      var before, last := Slots(n, schedule[..|schedule| - 1]), schedule[|schedule| - 1];
      before[last.vu := Recorded(before[last.vu], last.event)]
  }

  /** No interference: a slot depends only on its own virtual user's requests. */
  lemma {:induction false} SlotIsOwnFold(n: nat, schedule: seq<Step>, i: nat)
    requires ScheduleFor(schedule, n) && i < n
    ensures Slots(n, schedule)[i] == Fold(EventsOf(schedule, i))
  {
    if schedule != [] {
      SlotIsOwnFold(n, schedule[..|schedule| - 1], i);
    }
  }

  function PerUser(n: nat, schedule: seq<Step>): (gs: seq<seq<Event>>)
    ensures |gs| == n
  {
    seq(n, i requires 0 <= i < n => EventsOf(schedule, i))
  }

  /**
   Lock-free concurrency is deterministic: the merged tally of any interleaving
   is that of running the virtual users one after another.
   */
  lemma InterleavingEqualsSequential(n: nat, schedule: seq<Step>)
    requires ScheduleFor(schedule, n)
    ensures AbsorbAll(Slots(n, schedule)) == Fold(Flatten(PerUser(n, schedule)))
  {
    forall i | 0 <= i < n
      ensures Slots(n, schedule)[i] == Folds(PerUser(n, schedule))[i]
    {
      SlotIsOwnFold(n, schedule, i);
    }
    assert Slots(n, schedule) == Folds(PerUser(n, schedule));
    MergeRefinesFold(PerUser(n, schedule));
  }

  /** Two interleavings of the same virtual users give the same slots. */
  lemma ScheduleIrrelevant(n: nat, a: seq<Step>, b: seq<Step>)
    requires ScheduleFor(a, n) && ScheduleFor(b, n)
    requires forall i: nat :: i < n ==> EventsOf(a, i) == EventsOf(b, i)
    ensures Slots(n, a) == Slots(n, b)
  {
    forall i: nat | i < n
      ensures Slots(n, a)[i] == Slots(n, b)[i]
    {
      SlotIsOwnFold(n, a, i);
      SlotIsOwnFold(n, b, i);
    }
  }

  // ---- The merge also equals one tally of the requests in recording order ----

  lemma RecordOnLeft(t: Tally, u: Tally, e: Event)
    requires |t.buckets| == |u.buckets| == NUM_BUCKETS
    requires 0 <= t.latencyCount && 0 <= u.latencyCount
    ensures Absorb(Recorded(t, e), u) == Recorded(Absorb(t, u), e)
  {
    assert AddBuckets(Recorded(t, e).buckets, u.buckets) == Recorded(Absorb(t, u), e).buckets;
  }

  ghost predicate WellFormed(ts: seq<Tally>) {
    forall i :: 0 <= i < |ts| ==> |ts[i].buckets| == NUM_BUCKETS && 0 <= ts[i].latencyCount
  }

  lemma {:induction false} AbsorbAllWellFormed(ts: seq<Tally>)
    requires WellFormed(ts)
    ensures 0 <= AbsorbAll(ts).latencyCount
  {
    if ts != [] {
      AbsorbAllWellFormed(ts[..|ts| - 1]);
    }
  }

  lemma {:induction false} RecordInOneSlot(ts: seq<Tally>, i: nat, e: Event)
    requires WellFormed(ts) && i < |ts|
    ensures AbsorbAll(ts[i := Recorded(ts[i], e)]) == Recorded(AbsorbAll(ts), e)
  {
    var n := |ts| - 1;
    var init := ts[..n];
    AbsorbAllWellFormed(init);
    var us := ts[i := Recorded(ts[i], e)];
    if i == n {
      assert us[..n] == init;
      AbsorbRecord(AbsorbAll(init), ts[n], e);
    } else {
      assert us[..n] == init[i := Recorded(init[i], e)];
      RecordInOneSlot(init, i, e);
      RecordOnLeft(AbsorbAll(init), ts[n], e);
    }
  }

  lemma {:induction false} FlattenEmpties(gs: seq<seq<Event>>)
    requires forall i :: 0 <= i < |gs| ==> gs[i] == []
    ensures Flatten(gs) == []
  {
    if gs != [] {
      FlattenEmpties(gs[..|gs| - 1]);
    }
  }

  lemma {:induction false} SlotsWellFormed(n: nat, schedule: seq<Step>)
    requires ScheduleFor(schedule, n)
    ensures WellFormed(Slots(n, schedule))
  {
    if schedule != [] {
      SlotsWellFormed(n, schedule[..|schedule| - 1]);
    }
  }

  lemma {:induction false} MergedSlotsAreOneTally(n: nat, schedule: seq<Step>)
    requires ScheduleFor(schedule, n)
    ensures AbsorbAll(Slots(n, schedule)) == Fold(Events(schedule))
  {
    if schedule == [] {
      InterleavingEqualsSequential(n, schedule);
      FlattenEmpties(PerUser(n, schedule));
    } else {
      var init, last := schedule[..|schedule| - 1], schedule[|schedule| - 1];
      MergedSlotsAreOneTally(n, init);
      SlotsWellFormed(n, init);
      RecordInOneSlot(Slots(n, init), last.vu, last.event);
      assert Events(schedule)[..|init|] == Events(init);
    }
  }

  ghost predicate Separate(stats: seq<VuStats>) {
    forall i, j :: 0 <= i < j < |stats| ==> stats[i] != stats[j] && stats[i].buckets != stats[j].buckets
  }

  method NewSlots(n: nat) returns (stats: seq<VuStats>)
    ensures |stats| == n && Separate(stats)
    ensures forall i :: 0 <= i < n ==> fresh(stats[i]) && fresh(stats[i].buckets)
    ensures forall i :: 0 <= i < n ==> stats[i].Valid() && stats[i].View() == EMPTY
  {
    stats := [];
    for k := 0 to n
      invariant |stats| == k && Separate(stats)
      invariant forall i :: 0 <= i < k ==> fresh(stats[i]) && fresh(stats[i].buckets)
      invariant forall i :: 0 <= i < k ==> stats[i].Valid() && stats[i].View() == EMPTY
    {
      var s := new VuStats();
      stats := stats + [s];
    }
  }

  /**
   Runs a load test whose goroutines happen to interleave as the schedule says.
   Whatever the interleaving, the result is that of a single tally over all requests.
   */
  method Run(cfg: Config, schedule: seq<Step>) returns (r: Outcome)
    requires ScheduleFor(schedule, cfg.virtualUsers)
    ensures cfg.virtualUsers <= 0 || cfg.targetURL == "" <==> r.BadConfig?
    ensures r.BadConfig? ==>
      r.message == if cfg.virtualUsers <= 0 then "virtual users must be greater than 0" else "target URL must not be empty"
    ensures r.Finished? ==> r.result == ResultOf(Fold(Events(schedule))) && Reflects(r.result, Events(schedule))
  {
    if cfg.virtualUsers <= 0 {
      return BadConfig("virtual users must be greater than 0");
    }
    if cfg.targetURL == "" {
      return BadConfig("target URL must not be empty");
    }
    var n: nat := cfg.virtualUsers;
    var stats := NewSlots(n);
    for k := 0 to |schedule|
      invariant Separate(stats)
      invariant forall i :: 0 <= i < n ==> fresh(stats[i]) && fresh(stats[i].buckets)
      invariant forall i :: 0 <= i < n ==> stats[i].Valid() && stats[i].View() == Slots(n, schedule[..k])[i]
    {
      assert schedule[..k + 1][..k] == schedule[..k];
      var e := schedule[k].event;
      stats[schedule[k].vu].Record(e.latencyMs, e.success, e.gotResponse);
    }
    assert schedule[..|schedule|] == schedule;
    assert Views(stats) == Slots(n, schedule);
    MergedSlotsAreOneTally(n, schedule);
    ResultReflects(Events(schedule));
    var merged := MergeStats(stats);
    return Finished(merged);
  }
}
