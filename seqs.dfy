/** Sequence operations used by the gallery views, with the facts the views rely on. */
module Seqs {

  function Min(a: int, b: int): int { if a <= b then a else b }

  /** The elements of `s` satisfying `p`, in their order in `s` (Array.prototype.filter). */
  function Filter<T>(s: seq<T>, p: T -> bool): (r: seq<T>)
    ensures |r| <= |s|
    ensures forall i :: 0 <= i < |r| ==> p(r[i])
    decreases |s|
  {
    if s == [] then []
    else if p(s[0]) then [s[0]] + Filter(s[1..], p)
    else Filter(s[1..], p)
  }

  /** `idx` lists strictly increasing positions of `b` at which the elements of `a` occur. */
  ghost predicate IsEmbedding<T>(idx: seq<nat>, a: seq<T>, b: seq<T>) {
    |idx| == |a| &&
    (forall i :: 0 <= i < |idx| ==> idx[i] < |b| && a[i] == b[idx[i]]) &&
    (forall i, j :: 0 <= i < j < |idx| ==> idx[i] < idx[j])
  }

  /** `a` is obtained from `b` by deleting elements, keeping the order of the rest. */
  ghost predicate IsSubsequence<T>(a: seq<T>, b: seq<T>) {
    exists idx: seq<nat> :: IsEmbedding(idx, a, b)
  }

  /** The positions of `s` that Filter keeps. */
  lemma {:induction false} FilterEmbedding<T>(s: seq<T>, p: T -> bool) returns (idx: seq<nat>)
    ensures IsEmbedding(idx, Filter(s, p), s)
    decreases |s|
  {
    if s == [] {
      idx := [];
    } else {
      var rest := FilterEmbedding(s[1..], p);
      var shifted := seq(|rest|, i requires 0 <= i < |rest| => rest[i] + 1);
      if p(s[0]) {
        idx := [0] + shifted;
      } else {
        idx := shifted;
      }
    }
  }

  /** Filter preserves the relative order of the elements it keeps. */
  lemma FilterIsSubsequence<T>(s: seq<T>, p: T -> bool)
    ensures IsSubsequence(Filter(s, p), s)
  {
    var idx := FilterEmbedding(s, p);
  }

  /** Filter keeps every element satisfying `p` as often as it occurs, and no other element. */
  lemma {:induction false} FilterCount<T>(s: seq<T>, p: T -> bool, x: T)
    ensures multiset(Filter(s, p))[x] == if p(x) then multiset(s)[x] else 0
    decreases |s|
  {
    if s != [] {
      FilterCount(s[1..], p, x);
      assert s == [s[0]] + s[1..];
    }
  }

  /** An element is kept exactly when it occurs in `s` and satisfies `p`. */
  lemma FilterMembership<T>(s: seq<T>, p: T -> bool, x: T)
    ensures x in Filter(s, p) <==> x in s && p(x)
  {
    FilterCount(s, p, x);
    assert x in Filter(s, p) <==> multiset(Filter(s, p))[x] > 0;
    assert x in s <==> multiset(s)[x] > 0;
  }

  /** Filter drops nothing exactly when every element satisfies `p`. */
  lemma {:induction false} FilterKeepsAll<T>(s: seq<T>, p: T -> bool)
    ensures |Filter(s, p)| == |s| <==> forall i :: 0 <= i < |s| ==> p(s[i])
    ensures (forall i :: 0 <= i < |s| ==> p(s[i])) ==> Filter(s, p) == s
    decreases |s|
  {
    if s != [] {
      FilterKeepsAll(s[1..], p);
      if p(s[0]) {
        assert forall i :: 1 <= i < |s| ==> s[i] == s[1..][i - 1];
      } else {
        assert |Filter(s, p)| < |s|;
      }
    }
  }

  /** Filter keeps nothing exactly when no element satisfies `p`. */
  lemma {:induction false} FilterEmpty<T>(s: seq<T>, p: T -> bool)
    ensures Filter(s, p) == [] <==> forall i :: 0 <= i < |s| ==> !p(s[i])
    decreases |s|
  {
    if s != [] {
      FilterEmpty(s[1..], p);
      assert forall i :: 1 <= i < |s| ==> s[i] == s[1..][i - 1];
    }
  }

  /** Filtering distributes over concatenation. */
  lemma {:induction false} FilterAppend<T>(a: seq<T>, b: seq<T>, p: T -> bool)
    ensures Filter(a + b, p) == Filter(a, p) + Filter(b, p)
    decreases |a|
  {
    if a == [] {
      assert a + b == b;
    } else {
      FilterAppend(a[1..], b, p);
      assert (a + b)[1..] == a[1..] + b;
    }
  }

  /** A prefix holds no element more often than the whole sequence. */
  lemma PrefixMultiset<T>(s: seq<T>, k: nat)
    requires k <= |s|
    ensures multiset(s[..k]) <= multiset(s)
  {
    assert s == s[..k] + s[k..];
  }
}
