/** Facts about rearranged sequences. */
module Permutations {

  lemma PermutationLength<T>(a: seq<T>, b: seq<T>)
    requires multiset(a) == multiset(b)
    ensures |a| == |b|
  {
    assert |multiset(a)| == |a| && |multiset(b)| == |b|;
  }

  /** Where the last element of a sits in b, and that removing it leaves a rearrangement. */
  lemma MatchLast<T>(a: seq<T>, b: seq<T>) returns (k: nat)
    requires a != [] && multiset(a) == multiset(b)
    ensures k < |b| && b[k] == a[|a| - 1]
    ensures multiset(a[..|a| - 1]) == multiset(b[..k] + b[k + 1..])
  {
    var n := |a| - 1;
    var x := a[n];
    assert a == a[..n] + [x];
    assert x in multiset(b);
    k :| 0 <= k < |b| && b[k] == x;
    assert b == b[..k] + [x] + b[k + 1..];
    calc {
      multiset(a[..n]);
      multiset(a) - multiset{x};
      multiset(b) - multiset{x};
      multiset(b[..k]) + multiset{x} + multiset(b[k + 1..]) - multiset{x};
      multiset(b[..k] + b[k + 1..]);
    }
  }

  // ---- Counting ----

  function Count<T>(s: seq<T>, p: T -> bool): (n: nat)
    ensures n <= |s|
  {
    if s == [] then 0 else Count(s[..|s| - 1], p) + if p(s[|s| - 1]) then 1 else 0
  }

  lemma {:induction false} CountAppend<T>(a: seq<T>, b: seq<T>, p: T -> bool)
    ensures Count(a + b, p) == Count(a, p) + Count(b, p)
  {
    if b == [] {
      assert a + b == a;
    } else {
      CountAppend(a, b[..|b| - 1], p);
      assert (a + b)[..|a + b| - 1] == a + b[..|b| - 1];
    }
  }

  lemma {:induction false} CountPermuted<T>(a: seq<T>, b: seq<T>, p: T -> bool)
    requires multiset(a) == multiset(b)
    ensures Count(a, p) == Count(b, p)
    decreases |a|
  {
    PermutationLength(a, b);
    if a != [] {
      var n := |a| - 1;
      var k := MatchLast(a, b);
      CountPermuted(a[..n], b[..k] + b[k + 1..], p);
      CountAppend(b[..k], b[k + 1..], p);
      assert b == b[..k] + [b[k]] + b[k + 1..];
      CountAppend(b[..k] + [b[k]], b[k + 1..], p);
      CountAppend(b[..k], [b[k]], p);
      assert [b[k]][..0] == [];
    }
  }

  /** When p holds of an initial stretch only, at least k elements satisfy p iff the k-th does. */
  lemma {:induction false} CountReaches<T>(s: seq<T>, p: T -> bool, k: nat)
    requires forall i, j :: 0 <= i <= j < |s| && p(s[j]) ==> p(s[i])
    requires 1 <= k <= |s|
    ensures k <= Count(s, p) <==> p(s[k - 1])
  {
    var n := |s| - 1;
    var init := s[..n];
    if k <= n {
      CountReaches(init, p, k);
    } else if 0 < n {
      CountReaches(init, p, n);
    }
  }

  lemma {:induction false} CountEverything<T>(s: seq<T>, p: T -> bool)
    requires forall i :: 0 <= i < |s| ==> p(s[i])
    ensures Count(s, p) == |s|
  {
    if s != [] {
      CountEverything(s[..|s| - 1], p);
    }
  }

  /** The positions at which p holds. */
  ghost function Positions<T>(s: seq<T>, p: T -> bool): set<nat> {
    set i: nat | i < |s| && p(s[i])
  }

  lemma {:induction false} CountIsCardinality<T>(s: seq<T>, p: T -> bool)
    ensures Count(s, p) == |Positions(s, p)|
  {
    if s == [] {
      assert Positions(s, p) == {};
    } else {
      var n := |s| - 1;
      CountIsCardinality(s[..n], p);
      assert forall i: nat :: i < n ==> s[..n][i] == s[i];
      assert Positions(s, p) - {n} == Positions(s[..n], p);
    }
  }
}
