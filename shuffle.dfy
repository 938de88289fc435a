/** The two random rearrangements the program uses, the shuffle and the sample of the random
    module, with the random integers supplied as a stream. */
module Shuffling {
  import opened Common

  /** The list after the shuffle's swaps at positions i, i - 1, ..., 1, starting from s: position
      i is swapped with the position `pick(i) % (i + 1)`. */
  function SwapDown<T>(s: seq<T>, pick: Picks, i: nat): (r: seq<T>)
    requires i < |s|
    ensures |r| == |s|
    ensures multiset(r) == multiset(s)
    decreases i
  {
    if i == 0 then s
    else
      var j := pick(i) % (i + 1);
      SwapMultiset(s, i, j);
      SwapDown(s[i := s[j]][j := s[i]], pick, i - 1)
  }

  /** Swapping two positions keeps the elements. */
  lemma SwapMultiset<T>(s: seq<T>, i: nat, j: nat)
    requires i < |s| && j < |s|
    ensures multiset(s[i := s[j]][j := s[i]]) == multiset(s)
  {
  }

  /** The shuffle of the random module, Fisher–Yates from the back, as a function of the list
      and the stream of random integers. It rearranges the list. */
  function Shuffled<T>(s: seq<T>, pick: Picks): (r: seq<T>)
    ensures |r| == |s|
    ensures multiset(r) == multiset(s)
  {
    if |s| == 0 then s else SwapDown(s, pick, |s| - 1)
  }

  /** The shuffle in place on an array. */
  method Shuffle<T>(s: seq<T>, pick: Picks) returns (r: seq<T>)
    ensures r == Shuffled(s, pick)
    ensures |r| == |s|
    ensures multiset(r) == multiset(s)
  {
    if |s| == 0 {
      return s;
    }
    var a := new T[|s|](k requires 0 <= k < |s| => s[k]);
    assert a[..] == s;
    var i := |s| - 1;
    while i > 0
      invariant 0 <= i < a.Length
      invariant SwapDown(a[..], pick, i) == Shuffled(s, pick)
    {
      var j := pick(i) % (i + 1);
      ghost var before := a[..];
      a[i], a[j] := a[j], a[i];
      assert a[..] == before[i := before[j]][j := before[i]];
      i := i - 1;
    }
    r := a[..];
  }

  /** A sample of k elements drawn without replacement, for the case the program reaches (k at
      most the size): the i-th result is taken out of the remaining pool at position
      `pick(i) % (n - i)`, and the last pool element moves into the hole. The random module uses
      this pool method for small populations and redraws indices into a set for large ones; the
      contract, a sub-multiset of size k, holds for both. */
  method Sample<T>(population: seq<T>, k: nat, pick: Picks) returns (r: seq<T>)
    requires k <= |population|
    ensures |r| == k
    ensures multiset(r) <= multiset(population)
  {
    var n := |population|;
    var pool := population;
    r := [];
    var i := 0;
    while i < k
      invariant 0 <= i <= k
      invariant |r| == i && |pool| == n - i
      invariant multiset(r) + multiset(pool) == multiset(population)
    {
      var j := pick(i) % (n - i);
      var last := n - i - 1;
      SampleStep(population, r, pool, j);
      r := r + [pool[j]];
      pool := pool[j := pool[last]][..last];
      i := i + 1;
    }
  }


  /** Moving the last element into the hole left by position j removes exactly s[j]. */
  lemma TakeOut<T>(s: seq<T>, j: nat)
    requires j < |s|
    ensures multiset(s[j := s[|s| - 1]][..|s| - 1]) + multiset{s[j]} == multiset(s)
  {
    var last := |s| - 1;
    var u := s[j := s[last]];
    assert u == u[..last] + [u[last]];
    assert multiset(u) == multiset(s) - multiset{s[j]} + multiset{s[last]};
  }

  /** Moving the picked element from the pool to the sample keeps their union. */
  lemma SampleStep<T>(population: seq<T>, r: seq<T>, pool: seq<T>, j: nat)
    requires j < |pool| && multiset(r) + multiset(pool) == multiset(population)
    ensures multiset(r + [pool[j]]) + multiset(pool[j := pool[|pool| - 1]][..|pool| - 1]) == multiset(population)
  {
    TakeOut(pool, j);
  }

  /** In a list free of repeats no element occurs twice. */
  lemma {:induction false} DistinctSingle<T>(s: seq<T>)
    requires Distinct(s)
    ensures forall x :: multiset(s)[x] <= 1
  {
    if s != [] {
      var t, y := s[..|s| - 1], s[|s| - 1];
      assert s == t + [y];
      assert Distinct(t);
      DistinctSingle(t);
      assert y !in multiset(t);
    }
  }

  /** A list in which no element occurs twice is free of repeats. */
  lemma {:induction false} SingleDistinct<T>(s: seq<T>)
    requires forall x :: multiset(s)[x] <= 1
    ensures Distinct(s)
  {
    if s != [] {
      var t, y := s[..|s| - 1], s[|s| - 1];
      assert s == t + [y];
      assert forall x :: multiset(t)[x] <= multiset(s)[x];
      SingleDistinct(t);
      assert multiset(s)[y] == multiset(t)[y] + 1;
      assert y !in t;
    }
  }

  /** Drawing without replacement from a list free of repeats gives a list free of repeats. */
  lemma SubMultisetDistinct<T>(r: seq<T>, s: seq<T>)
    requires multiset(r) <= multiset(s) && Distinct(s)
    ensures Distinct(r)
  {
    DistinctSingle(s);
    forall x ensures multiset(r)[x] <= 1 {
      assert multiset(r)[x] <= multiset(s)[x];
    }
    SingleDistinct(r);
  }
}
