/**
 Fanning a run out into shards (backend/internal/handlers/test_runs.go).
 */
module Handlers {
  import opened Histogram

  const MAX_VIRTUAL_USERS := 1000
  const MAX_DURATION_SECONDS := 3600
  const MAX_SHARDS := 64

  /** An even split: positive parts, larger parts first, differing by at most one. */
  ghost predicate EvenSplit(parts: seq<int>, total: int) {
    && Sum(parts) == total
    && (forall i :: 0 <= i < |parts| ==> 0 < parts[i])
    && (forall i, j :: 0 <= i < j < |parts| ==> parts[j] <= parts[i] <= parts[j] + 1)
  }

  lemma {:induction false} SumOfTwoLevels(parts: seq<int>, base: int, k: nat)
    requires k <= |parts|
    requires forall i :: 0 <= i < |parts| ==> parts[i] == if i < k then base + 1 else base
    ensures Sum(parts) == |parts| * base + k
  {
    if parts != [] {
      var n := |parts| - 1;
      if k <= n {
        SumOfTwoLevels(parts[..n], base, k);
      } else {
        SumOfTwoLevels(parts[..n], base, n);
      }
      assert |parts| * base == n * base + base;
    }
  }

  method SplitVUs(total: int, n: int) returns (out: array<int>)
    requires 1 <= n <= total
    ensures fresh(out) && out.Length == n
    ensures EvenSplit(out[..], total)
  {
    var base, rem := total / n, total % n;
    out := new int[n];
    for i := 0 to n
      invariant forall k :: 0 <= k < i ==> out[k] == if k < rem then base + 1 else base
    {
      out[i] := base;
      if i < rem {
        out[i] := out[i] + 1;
      }
    }
    SumOfTwoLevels(out[..], base, rem);
    assert n * base + rem == total;
    assert 1 <= base;
  }

  lemma {:induction false} SumDominates(a: seq<int>, b: seq<int>)
    requires |a| == |b|
    requires forall k :: 0 <= k < |a| ==> b[k] <= a[k]
    ensures Sum(b) <= Sum(a)
    ensures a != b ==> Sum(b) < Sum(a)
  {
    if a != [] {
      var n := |a| - 1;
      SumDominates(a[..n], b[..n]);
      assert a == a[..n] + [a[n]] && b == b[..n] + [b[n]];
    }
  }

  /** There is only one even split into a given number of parts. */
  lemma EvenSplitUnique(a: seq<int>, b: seq<int>, total: int)
    requires EvenSplit(a, total) && EvenSplit(b, total) && |a| == |b|
    ensures a == b
  {
    if a != b {
      var i := FirstDifference(a, b);
      if b[i] < a[i] {
        Above(a, b, i);
        SumDominates(a, b);
      } else {
        Above(b, a, i);
        SumDominates(b, a);
      }
    }
  }

  lemma FirstDifference(a: seq<int>, b: seq<int>) returns (i: nat)
    requires |a| == |b| && a != b
    ensures i < |a| && a[i] != b[i] && a[..i] == b[..i]
  {
    i := 0;
    while i < |a| && a[i] == b[i]
      invariant i <= |a| && a[..i] == b[..i]
    {
      assert a[..i + 1] == a[..i] + [a[i]] && b[..i + 1] == b[..i] + [b[i]];
      i := i + 1;
    }
    assert a[..|a|] == a && b[..|b|] == b;
  }

  /** Once one even split is ahead it stays at least level: its parts drop by at most one. */
  lemma Above(a: seq<int>, b: seq<int>, i: nat)
    requires |a| == |b| && i < |a| && a[..i] == b[..i] && b[i] < a[i]
    requires forall j, k :: 0 <= j < k < |a| ==> a[j] <= a[k] + 1
    requires forall j, k :: 0 <= j < k < |b| ==> b[k] <= b[j]
    ensures forall k :: 0 <= k < |a| ==> b[k] <= a[k]
  {
    forall k | 0 <= k < |a|
      ensures b[k] <= a[k]
    {
      if k < i {
        assert a[k] == a[..i][k] && b[k] == b[..i][k];
      }
    }
  }

  datatype Request = Request(virtualUsers: int, durationSeconds: int, shards: int)

  datatype Plan = Accepted(parts: seq<int>) | Rejected(message: string)

  /**
   The size checks of validateCreate followed by the split. An accepted request
   always satisfies what splitVUs expects of its callers; a missing shard count means one.
   */
  method PlanShards(req: Request) returns (p: Plan)
    ensures p.Accepted? <==>
      && 1 <= req.virtualUsers <= 1000
      && 1 <= req.durationSeconds <= 3600
      && 0 <= req.shards <= 64 && req.shards <= req.virtualUsers
    ensures p.Rejected? ==>
      p.message ==
        if req.virtualUsers <= 0 then "virtualUsers must be greater than 0"
        else if req.virtualUsers > 1000 then "virtualUsers exceeds the maximum of 1000"
        else if req.durationSeconds <= 0 then "durationSeconds must be greater than 0"
        else if req.durationSeconds > 3600 then "durationSeconds exceeds the maximum of 3600"
        else if req.shards < 0 then "shards must be at least 1"
        else if req.shards > 64 then "shards exceeds the maximum of 64"
        else "shards cannot exceed virtualUsers (each shard needs at least one VU)"
    ensures p.Accepted? ==>
      && EvenSplit(p.parts, req.virtualUsers)
      && |p.parts| == if req.shards == 0 then 1 else req.shards
  {
    if req.virtualUsers <= 0 {
      return Rejected("virtualUsers must be greater than 0");
    } else if req.virtualUsers > MAX_VIRTUAL_USERS {
      return Rejected("virtualUsers exceeds the maximum of 1000");
    } else if req.durationSeconds <= 0 {
      return Rejected("durationSeconds must be greater than 0");
    } else if req.durationSeconds > MAX_DURATION_SECONDS {
      return Rejected("durationSeconds exceeds the maximum of 3600");
    }
    var shards := req.shards;
    if shards == 0 {
      shards := 1;
    }
    if shards < 1 {
      return Rejected("shards must be at least 1");
    } else if shards > MAX_SHARDS {
      return Rejected("shards exceeds the maximum of 64");
    } else if shards > req.virtualUsers {
      return Rejected("shards cannot exceed virtualUsers (each shard needs at least one VU)");
    }
    var parts := SplitVUs(req.virtualUsers, shards);
    return Accepted(parts[..]);
  }
}
