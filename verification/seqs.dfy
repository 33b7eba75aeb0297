/** `Array.prototype.filter` and `map` over sequences, and the order-
    preserving subsequence relation their results stand in. */
module Seqs {

  /** The elements of `s` that `keep` accepts, in their original order. */
  function Filter<T(==,!new)>(s: seq<T>, keep: T -> bool): (r: seq<T>)
    ensures |r| <= |s|
    ensures forall i :: 0 <= i < |r| ==> keep(r[i]) && r[i] in s
    ensures forall i :: 0 <= i < |s| && keep(s[i]) ==> s[i] in r
    ensures forall x {:trigger multiset(r)[x]} :: multiset(r)[x] == if keep(x) then multiset(s)[x] else 0
  {
    if s == [] then []
    else
      assert s == [s[0]] + s[1..];
      assert multiset(s) == multiset{s[0]} + multiset(s[1..]);
      if keep(s[0]) then [s[0]] + Filter(s[1..], keep)
      else Filter(s[1..], keep)
  }

  /** `a` is `b` with some elements left out, the rest kept in order. */
  predicate Subseq<T(==)>(a: seq<T>, b: seq<T>)
    decreases |b|
  {
    if a == [] then true
    else if b == [] then false
    else (a[0] == b[0] && Subseq(a[1..], b[1..])) || Subseq(a, b[1..])
  }

  /** Every sequence is a subsequence of itself. */
  lemma {:induction false} SubseqRefl<T>(a: seq<T>)
    ensures Subseq(a, a)
    decreases |a|
  {
    if a != [] {
      SubseqRefl(a[1..]);
    }
  }

  /** A filter keeps the order of what it keeps. */
  lemma {:induction false} FilterIsSubseq<T(!new)>(s: seq<T>, keep: T -> bool)
    ensures Subseq(Filter(s, keep), s)
    decreases |s|
  {
    if s != [] {
      FilterIsSubseq(s[1..], keep);
      if keep(s[0]) {
        assert ([s[0]] + Filter(s[1..], keep))[1..] == Filter(s[1..], keep);
      }
    }
  }

  /** Filtering with a weaker condition keeps everything a stronger one
      keeps, in the same order. */
  lemma {:induction false} FilterMonotone<T(!new)>(s: seq<T>, p: T -> bool, q: T -> bool)
    requires forall x :: p(x) ==> q(x)
    ensures Subseq(Filter(s, p), Filter(s, q))
    decreases |s|
  {
    if s != [] {
      FilterMonotone(s[1..], p, q);
      var a, b := Filter(s[1..], p), Filter(s[1..], q);
      if p(s[0]) {
        assert ([s[0]] + a)[1..] == a;
        assert ([s[0]] + b)[1..] == b;
      } else if q(s[0]) {
        assert ([s[0]] + b)[1..] == b;
      }
    }
  }

  /** A condition every element meets keeps the whole sequence. */
  lemma {:induction false} FilterKeepsAll<T(!new)>(s: seq<T>, keep: T -> bool)
    requires forall i :: 0 <= i < |s| ==> keep(s[i])
    ensures Filter(s, keep) == s
    decreases |s|
  {
    if s != [] {
      FilterKeepsAll(s[1..], keep);
    }
  }

  /** A condition no element meets keeps nothing. */
  lemma {:induction false} FilterDropsAll<T(!new)>(s: seq<T>, keep: T -> bool)
    requires forall i :: 0 <= i < |s| ==> !keep(s[i])
    ensures Filter(s, keep) == []
    decreases |s|
  {
    if s != [] {
      FilterDropsAll(s[1..], keep);
    }
  }

  /** How many elements of `s` meet `keep`. */
  function Count<T(==,!new)>(s: seq<T>, keep: T -> bool): (n: nat)
    ensures n <= |s|
  {
    |Filter(s, keep)|
  }

  /** The filter of a condition no element meets is empty, and one every
      element meets keeps all. */
  lemma CountExtremes<T(!new)>(s: seq<T>, keep: T -> bool)
    ensures (forall i :: 0 <= i < |s| ==> !keep(s[i])) ==> Filter(s, keep) == []
    ensures (forall i :: 0 <= i < |s| ==> keep(s[i])) ==> Filter(s, keep) == s
  {
    if forall i :: 0 <= i < |s| ==> !keep(s[i]) {
      FilterDropsAll(s, keep);
    }
    if forall i :: 0 <= i < |s| ==> keep(s[i]) {
      FilterKeepsAll(s, keep);
    }
  }

  /** Counting a non-empty sequence counts its head, then its tail. */
  lemma CountHead<T(!new)>(s: seq<T>, keep: T -> bool)
    requires s != []
    ensures Count(s, keep) == (if keep(s[0]) then 1 else 0) + Count(s[1..], keep)
  {
  }

  /** Counting distributes over concatenation in front. */
  lemma {:induction false} CountCons<T(!new)>(x: T, s: seq<T>, keep: T -> bool)
    ensures Count([x] + s, keep) == (if keep(x) then 1 else 0) + Count(s, keep)
  {
    assert ([x] + s)[1..] == s;
  }
}
