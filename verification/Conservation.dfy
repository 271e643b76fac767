/** Virtual users are conserved by the fan-out, and admission stays bounded. */
module Conservation {
  import opened Tables
  import opened Histogram
  import opened Handlers
  import opened Database
  import opened Lifecycle
  import opened Barrier
  import opened Safety
  import opened Statements
  import opened Theorems

  // ---- Virtual users ----

  /** The virtual users of a run's shards, in shard order. */
  function SharesOf(shards: seq<ShardRow>, run: nat): seq<int> {
    if shards == [] then []
    else
      var init, last := SharesOf(shards[..|shards| - 1], run), shards[|shards| - 1];
      if last.runId == run then init + [last.virtualUsers] else init
  }

  lemma {:induction false} SharesCountRows(shards: seq<ShardRow>, run: nat)
    ensures |SharesOf(shards, run)| == |RowsOf(shards, run)|
  {
    if shards != [] {
      SharesCountRows(shards[..|shards| - 1], run);
    }
  }

  lemma {:induction false} SameShares(a: seq<ShardRow>, b: seq<ShardRow>, run: nat)
    requires |a| == |b|
    requires forall i :: 0 <= i < |a| ==> b[i].runId == a[i].runId && b[i].virtualUsers == a[i].virtualUsers
    ensures SharesOf(a, run) == SharesOf(b, run)
  {
    if a != [] {
      SameShares(a[..|a| - 1], b[..|b| - 1], run);
    }
  }

  lemma {:induction false} SharesAppend(a: seq<ShardRow>, b: seq<ShardRow>, run: nat)
    ensures SharesOf(a + b, run) == SharesOf(a, run) + SharesOf(b, run)
  {
    if b == [] {
      assert a + b == a;
    } else {
      SharesAppend(a, b[..|b| - 1], run);
      assert (a + b)[..|a + b| - 1] == a + b[..|b| - 1];
    }
  }

  lemma {:induction false} NoShares(rows: seq<ShardRow>, run: nat)
    requires forall i :: 0 <= i < |rows| ==> rows[i].runId != run
    ensures SharesOf(rows, run) == []
  {
    if rows != [] {
      NoShares(rows[..|rows| - 1], run);
    }
  }

  lemma {:induction false} AllShares(rows: seq<ShardRow>, run: nat)
    requires forall i :: 0 <= i < |rows| ==> rows[i].runId == run
    ensures |SharesOf(rows, run)| == |rows|
    ensures forall i :: 0 <= i < |rows| ==> SharesOf(rows, run)[i] == rows[i].virtualUsers
  {
    if rows != [] {
      AllShares(rows[..|rows| - 1], run);
    }
  }

  ghost predicate Conserved(s: State) {
    forall r :: 0 <= r < |s.runs| ==>
      EvenSplit(SharesOf(s.shards, r), s.runs[r].virtualUsers) && |SharesOf(s.shards, r)| == s.runs[r].shardCount
  }

  lemma ConservedKept(s: State, t: State)
    requires Conserved(s) && Later(s, t) && |t.runs| == |s.runs| && |t.shards| == |s.shards|
    ensures Conserved(t)
  {
    forall r | 0 <= r < |t.runs|
      ensures EvenSplit(SharesOf(t.shards, r), t.runs[r].virtualUsers)
      ensures |SharesOf(t.shards, r)| == t.runs[r].shardCount
    {
      assert RunLater(s.runs[r], t.runs[r]);
      forall i | 0 <= i < |s.shards|
        ensures t.shards[i].runId == s.shards[i].runId && t.shards[i].virtualUsers == s.shards[i].virtualUsers
      {
        assert ShardLater(s.shards[i], t.shards[i]);
      }
      SameShares(s.shards, t.shards, r);
    }
  }

  lemma ConservedByCreate(s: State, virtualUsers: int, parts: seq<int>)
    requires Inv(s) && Conserved(s) && Enabled(s, Create(virtualUsers, parts))
    ensures Conserved(Apply(s, Create(virtualUsers, parts)))
  {
    var t := Apply(s, Create(virtualUsers, parts));
    var n := |s.runs|;
    var rows := NewShards(n, parts);
    forall i | 0 <= i < |s.shards|
      ensures s.shards[i].runId < n
    {
      assert ShardOk(s, i);
    }
    forall r | 0 <= r < |t.runs|
      ensures EvenSplit(SharesOf(t.shards, r), t.runs[r].virtualUsers)
      ensures |SharesOf(t.shards, r)| == t.runs[r].shardCount
    {
      SharesAppend(s.shards, rows, r);
      if r < n {
        NoShares(rows, r);
        assert SharesOf(t.shards, r) == SharesOf(s.shards, r);
      } else {
        NoShares(s.shards, n);
        AllShares(rows, n);
        assert SharesOf(t.shards, r) == parts;
      }
    }
  }

  lemma {:induction false} RunConserved(s: State, actions: seq<Action>)
    requires Inv(s) && Conserved(s) && Legal(s, actions)
    ensures Conserved(Run(s, actions))
    decreases |actions|
  {
    if actions != [] {
      var a, t := actions[0], Apply(s, actions[0]);
      StepInv(s, a);
      if a.Create? {
        ConservedByCreate(s, a.virtualUsers, a.parts);
      } else {
        if !a.Admit? && !a.CreateFails? {
          StatementSizes(s, a);
        }
        ConservedKept(s, t);
      }
      RunConserved(t, actions[1..]);
    }
  }

  /**
   In every reachable state each run's shards are an even split of its virtual users:
   they sum to them, and shard_count is the number of shard rows.
   */
  lemma VirtualUsersConserved(s: State, r: nat)
    requires Reachable(s) && r < |s.runs|
    ensures Sum(SharesOf(s.shards, r)) == s.runs[r].virtualUsers
    ensures EvenSplit(SharesOf(s.shards, r), s.runs[r].virtualUsers)
    ensures |RowsOf(s.shards, r)| == s.runs[r].shardCount
  {
    var cap: int, actions: seq<Action> :| Legal(Init(cap), actions) && s == Run(Init(cap), actions);
    InitInv(cap);
    RunConserved(Init(cap), actions);
    SharesCountRows(s.shards, r);
  }

  // ---- Admission ----

  lemma {:induction false} ActiveShrinks(a: seq<RunRow>, b: seq<RunRow>)
    requires |a| == |b|
    requires forall r :: 0 <= r < |a| ==> RunLater(a[r], b[r])
    ensures CountActive(b) <= CountActive(a)
  {
    if a != [] {
      var n := |a| - 1;
      assert forall r :: 0 <= r < n ==> a[..n][r] == a[r] && b[..n][r] == b[r];
      ActiveShrinks(a[..n], b[..n]);
      assert RunLater(a[n], b[n]);
    }
  }

  ghost predicate AdmissionOk(s: State) {
    && s.admitted <= s.peak
    && (0 < s.cap ==> CountActive(s.runs) + s.admitted <= if s.peak == 0 then 0 else s.cap + s.peak - 1)
  }

  /** Steps that neither create runs nor admit creators can only end runs. */
  lemma AdmissionKept(s: State, t: State)
    requires AdmissionOk(s) && SameSizes(s, t) && Later(s, t)
    ensures AdmissionOk(t)
  {
    ActiveShrinks(s.runs, t.runs);
  }

  lemma AdmissionByCreate(s: State, virtualUsers: int, parts: seq<int>)
    requires AdmissionOk(s) && Enabled(s, Create(virtualUsers, parts))
    ensures AdmissionOk(Apply(s, Create(virtualUsers, parts)))
  {
    var t := Apply(s, Create(virtualUsers, parts));
    assert t.runs[..|s.runs|] == s.runs;
  }

  lemma AdmissionStep(s: State, a: Action)
    requires Inv(s) && AdmissionOk(s) && Enabled(s, a)
    ensures AdmissionOk(Apply(s, a))
  {
    match a
    case Admit =>
    case CreateFails =>
    case Create(virtualUsers, parts) =>
      AdmissionByCreate(s, virtualUsers, parts);
    case _ =>
      StepInv(s, a);
      StatementSizes(s, a);
      AdmissionKept(s, Apply(s, a));
  }

  lemma {:induction false} RunAdmission(s: State, actions: seq<Action>)
    requires Inv(s) && AdmissionOk(s) && Legal(s, actions)
    ensures AdmissionOk(Run(s, actions))
    decreases |actions|
  {
    if actions != [] {
      StepInv(s, actions[0]);
      AdmissionStep(s, actions[0]);
      RunAdmission(Apply(s, actions[0]), actions[1..]);
    }
  }

  /** At no point of the run are more than k creators between the capacity check and the insert. */
  ghost predicate AtMostCreating(s: State, actions: seq<Action>, k: nat)
    requires Legal(s, actions)
    decreases |actions|
  {
    s.admitted <= k && (actions != [] ==> AtMostCreating(Apply(s, actions[0]), actions[1..], k))
  }

  lemma {:induction false} PeakBounded(s: State, actions: seq<Action>, k: nat)
    requires Inv(s) && s.peak <= k && Legal(s, actions) && AtMostCreating(s, actions, k)
    ensures Run(s, actions).peak <= k
    decreases |actions|
  {
    if actions != [] {
      var t := Apply(s, actions[0]);
      StepInv(s, actions[0]);
      assert AtMostCreating(t, actions[1..], k);
      PeakStep(s, actions[0], k);
      PeakBounded(t, actions[1..], k);
    }
  }

  lemma PeakStep(s: State, a: Action, k: nat)
    requires Inv(s) && Enabled(s, a) && s.peak <= k && Apply(s, a).admitted <= k
    ensures Apply(s, a).peak <= k
  {
    if a.Open? || a.Exec? || a.Abort? {
      StatementSizes(s, a);
    }
  }

  /**
   Check-then-create overshoots a positive cap by less than the number of creators ever
   between the check and the insert at once: with at most k of them, the runs that are not
   terminal and the admitted creators together never exceed cap + k - 1.
   */
  lemma AdmissionBound(cap: int, actions: seq<Action>, k: nat)
    requires 0 < cap && 1 <= k && Legal(Init(cap), actions) && AtMostCreating(Init(cap), actions, k)
    ensures var s := Run(Init(cap), actions);
      && |set r: nat | r < |s.runs| && !s.runs[r].status.Terminal()| + s.admitted <= cap + k - 1
      && (k == 1 ==> |set r: nat | r < |s.runs| && !s.runs[r].status.Terminal()| <= cap)
  {
    InitInv(cap);
    RunAdmission(Init(cap), actions);
    RunInv(Init(cap), actions);
    PeakBounded(Init(cap), actions, k);
    ActiveCardinality(Run(Init(cap), actions).runs);
  }
}
