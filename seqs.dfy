/** Sequence vocabulary used by the specifications: prefixes, position-aware filters, subsequences. */
module Seqs {
  import opened Common

  /** The first n elements, or all of s when it is shorter. */
  function Take<T>(s: seq<T>, n: nat): (r: seq<T>)
    ensures |r| == Min(n, |s|)
    ensures r <= s
  {
    if n <= |s| then s[..n] else s
  }

  /** The elements of s, in order, whose position and value satisfy keep.
      Position i is the index in s, so a draw stream aligned with s can be consulted. */
  function Select<T>(s: seq<T>, keep: (nat, T) -> bool): (r: seq<T>)
    ensures |r| <= |s|
  {
    if s == [] then []
    else Select(s[..|s| - 1], keep) + (if keep(|s| - 1, s[|s| - 1]) then [s[|s| - 1]] else [])
  }

  /** The image of s under f, element by element. */
  function Project<A, B>(s: seq<A>, f: A -> B): (r: seq<B>)
    ensures |r| == |s|
    ensures forall i :: 0 <= i < |s| ==> r[i] == f(s[i])
  {
    if s == [] then [] else Project(s[..|s| - 1], f) + [f(s[|s| - 1])]
  }

  /** The blocks of `blocks` one after the other. */
  function Concat<T>(blocks: seq<seq<T>>): seq<T> {
    if blocks == [] then [] else Concat(blocks[..|blocks| - 1]) + blocks[|blocks| - 1]
  }

  lemma ConcatAppend<T>(blocks: seq<seq<T>>, block: seq<T>)
    ensures Concat(blocks + [block]) == Concat(blocks) + block
  {
    assert (blocks + [block])[..|blocks|] == blocks;
  }

  /** An element of the concatenation belongs to one of the blocks. */
  lemma {:induction false} ConcatIn<T>(blocks: seq<seq<T>>, x: T)
    requires x in Concat(blocks)
    ensures exists k :: 0 <= k < |blocks| && x in blocks[k]
  {
    var init := blocks[..|blocks| - 1];
    if x !in blocks[|blocks| - 1] {
      ConcatIn(init, x);
      var k :| 0 <= k < |init| && x in init[k];
      assert blocks[k] == init[k];
    }
  }

  /** `a` can be obtained from `b` by deleting elements. */
  ghost predicate IsSubseq<T>(a: seq<T>, b: seq<T>)
    decreases |b|
  {
    if a == [] then true
    else if b == [] then false
    else (a[|a| - 1] == b[|b| - 1] && IsSubseq(a[..|a| - 1], b[..|b| - 1])) || IsSubseq(a, b[..|b| - 1])
  }

  lemma {:induction false} SelectPrefix<T>(s: seq<T>, keep: (nat, T) -> bool, i: nat)
    requires i <= |s|
    ensures Select(s[..i], keep) <= Select(s, keep)
    decreases |s| - i
  {
    if i < |s| {
      var t := s[..|s| - 1];
      assert s[..i] == t[..i];
      SelectPrefix(t, keep, i);
      assert Select(t, keep) <= Select(s, keep);
    } else {
      assert s[..i] == s;
    }
  }

  lemma {:induction false} SelectMember<T>(s: seq<T>, keep: (nat, T) -> bool, k: nat)
    requires k < |Select(s, keep)|
    ensures exists i :: 0 <= i < |s| && s[i] == Select(s, keep)[k] && keep(i, s[i])
  {
    var t := s[..|s| - 1];
    if k < |Select(t, keep)| {
      SelectMember(t, keep, k);
      var i :| 0 <= i < |t| && t[i] == Select(t, keep)[k] && keep(i, t[i]);
      assert s[i] == t[i];
    } else {
      assert s[|s| - 1] == Select(s, keep)[k];
    }
  }

  lemma {:induction false} SelectAll<T>(s: seq<T>, keep: (nat, T) -> bool)
    requires forall i :: 0 <= i < |s| ==> keep(i, s[i])
    ensures Select(s, keep) == s
  {
    if s != [] {
      var t := s[..|s| - 1];
      assert forall i :: 0 <= i < |t| ==> t[i] == s[i];
      SelectAll(t, keep);
      assert s == t + [s[|s| - 1]];
    }
  }

  lemma {:induction false} SubseqExtend<T>(a: seq<T>, b: seq<T>, x: T)
    requires IsSubseq(a, b)
    ensures IsSubseq(a, b + [x])
  {
    assert (b + [x])[..|b|] == b;
  }

  lemma {:induction false} SubseqDropLast<T>(a: seq<T>, b: seq<T>)
    requires a != [] && IsSubseq(a, b)
    ensures IsSubseq(a[..|a| - 1], b)
    decreases |b|
  {
    var a', b' := a[..|a| - 1], b[..|b| - 1];
    assert b == b' + [b[|b| - 1]];
    if a[|a| - 1] == b[|b| - 1] && IsSubseq(a', b') {
      SubseqExtend(a', b', b[|b| - 1]);
    } else {
      SubseqDropLast(a, b');
      SubseqExtend(a', b', b[|b| - 1]);
    }
  }

  lemma {:induction false} SubseqPrefix<T>(a: seq<T>, b: seq<T>, n: nat)
    requires IsSubseq(a, b) && n <= |a|
    ensures IsSubseq(a[..n], b)
    decreases |a| - n
  {
    if n < |a| {
      SubseqDropLast(a, b);
      assert a[..|a| - 1][..n] == a[..n];
      SubseqPrefix(a[..|a| - 1], b, n);
    } else {
      assert a[..n] == a;
    }
  }

  lemma {:induction false} SelectSubseq<T>(s: seq<T>, keep: (nat, T) -> bool)
    ensures IsSubseq(Select(s, keep), s)
  {
    if s != [] {
      var t := s[..|s| - 1];
      var x := s[|s| - 1];
      SelectSubseq(t, keep);
      assert s == t + [x];
      if keep(|s| - 1, x) {
        var r := Select(s, keep);
        assert r[..|r| - 1] == Select(t, keep);
      } else {
        assert Select(s, keep) == Select(t, keep) + [];
        assert Select(t, keep) + [] == Select(t, keep);
        SubseqExtend(Select(t, keep), t, x);
        assert IsSubseq(Select(s, keep), t + [x]);
      }
    }
  }

  /** A prefix of a subsequence is a subsequence. */
  lemma TakeSubseq<T>(a: seq<T>, b: seq<T>, n: nat)
    requires IsSubseq(a, b)
    ensures IsSubseq(Take(a, n), b)
  {
    if n <= |a| {
      SubseqPrefix(a, b, n);
    }
  }

  lemma {:induction false} DistinctCard<T>(s: seq<T>)
    requires Distinct(s)
    ensures |set x | x in s| == |s|
  {
    if s != [] {
      var t := s[..|s| - 1];
      var x := s[|s| - 1];
      assert s == t + [x];
      assert Distinct(t);
      DistinctCard(t);
      assert (set y | y in s) == (set y | y in t) + {x};
      assert x !in (set y | y in t);
    }
  }

  /** Membership in a filter: exactly the elements at some position that keep accepts. */
  lemma {:induction false} SelectIn<T>(s: seq<T>, keep: (nat, T) -> bool, x: T)
    ensures x in Select(s, keep) <==> exists i :: 0 <= i < |s| && s[i] == x && keep(i, x)
  {
    if x in Select(s, keep) {
      var k :| 0 <= k < |Select(s, keep)| && Select(s, keep)[k] == x;
      SelectMember(s, keep, k);
    }
    if exists i :: 0 <= i < |s| && s[i] == x && keep(i, x) {
      var i :| 0 <= i < |s| && s[i] == x && keep(i, x);
      SelectPrefix(s, keep, i + 1);
      var t := s[..i + 1];
      assert t[..|t| - 1] == s[..i];
      assert x in Select(t, keep);
    }
  }

  /** When the prefix of a longer sequence already has n elements, both have the same first n. */
  lemma TakeOfPrefix<T>(a: seq<T>, b: seq<T>, n: nat)
    requires a <= b && n <= |a|
    ensures Take(b, n) == Take(a, n)
  {
    assert a[..n] == b[..n];
  }

  /** Taking at most the whole sequence is the same as taking n. */
  lemma TakeMin<T>(s: seq<T>, n: nat)
    ensures Take(s, Min(n, |s|)) == Take(s, n)
  {
    if n > |s| {
      assert s[..|s|] == s;
    }
  }

  /** A filter that stops after `cap` kept elements (or at the end) has kept the first `cap` of the whole filter. */
  lemma SelectUpTo<T>(s: seq<T>, keep: (nat, T) -> bool, i: nat, cap: nat, r: seq<T>)
    requires i <= |s| && r == Select(s[..i], keep) && |r| <= cap
    requires i == |s| || |r| >= cap
    ensures r == Take(Select(s, keep), cap)
  {
    SelectPrefix(s, keep, i);
    if i == |s| {
      assert s[..i] == s;
    } else {
      TakeOfPrefix(r, Select(s, keep), cap);
    }
  }
}
