/** Sequence helpers standing for Python's list comprehensions:
    `[f(x) for x in s]` is Map and `[x for x in s if p(x)]` is Filter. */
module Seqs {

  /** `[f(x) for x in s]`. */
  function Map<A, B>(f: A -> B, s: seq<A>): (r: seq<B>)
    ensures |r| == |s|
    ensures forall i :: 0 <= i < |s| ==> r[i] == f(s[i])
  {
    if s == [] then [] else [f(s[0])] + Map(f, s[1..])
  }

  /** `[x for x in s if p(x)]`: keeps exactly the elements satisfying `p`. */
  function Filter<T(!new)>(s: seq<T>, p: T -> bool): (r: seq<T>)
    ensures |r| <= |s|
    ensures forall x :: x in r <==> x in s && p(x)
  {
    if s == [] then []
    else if p(s[0]) then [s[0]] + Filter(s[1..], p)
    else Filter(s[1..], p)
  }

  /** Position-wise "first": `x` sits at some index of `s`, satisfies `p`,
      and no earlier element does. */
  ghost predicate IsFirst<T>(s: seq<T>, p: T -> bool, x: T)
  {
    exists j :: 0 <= j < |s| && s[j] == x && p(x) && forall k :: 0 <= k < j ==> !p(s[k])
  }

  /** A filter is non-empty exactly when some element passes the test. */
  lemma FilterNonEmpty<T(!new)>(s: seq<T>, p: T -> bool)
    ensures Filter(s, p) != [] <==> exists i :: 0 <= i < |s| && p(s[i])
  {
    if Filter(s, p) != [] {
      var x := Filter(s, p)[0];
      assert x in s;
      var i :| 0 <= i < |s| && s[i] == x;
    }
  }

  lemma MapAppend<A, B>(f: A -> B, a: seq<A>, b: seq<A>)
    ensures Map(f, a + b) == Map(f, a) + Map(f, b)
  {
    assert forall i :: 0 <= i < |a + b| ==> Map(f, a + b)[i] == (Map(f, a) + Map(f, b))[i];
  }

  /** A filter never reorders: filtering a concatenation filters each part. */
  lemma {:induction false} FilterAppend<T(!new)>(a: seq<T>, b: seq<T>, p: T -> bool)
    ensures Filter(a + b, p) == Filter(a, p) + Filter(b, p)
  {
    if a != [] {
      assert (a + b)[0] == a[0];
      assert (a + b)[1..] == a[1..] + b;
      FilterAppend(a[1..], b, p);
    } else {
      assert a + b == b;
    }
  }

  /** The head of a non-empty filter is the first element of `s` that satisfies `p`. */
  lemma {:induction false} FilterHeadIsFirst<T(!new)>(s: seq<T>, p: T -> bool)
    requires Filter(s, p) != []
    ensures IsFirst(s, p, Filter(s, p)[0])
  {
    if p(s[0]) {
      assert s[0] == Filter(s, p)[0];
    } else {
      FilterHeadIsFirst(s[1..], p);
      var x := Filter(s[1..], p)[0];
      var j :| 0 <= j < |s[1..]| && s[1..][j] == x && p(x) && forall k :: 0 <= k < j ==> !p(s[1..][k]);
      assert s[j + 1] == x;
      forall k | 0 <= k < j + 1 ensures !p(s[k]) {
        if k > 0 { assert s[k] == s[1..][k - 1]; }
      }
    }
  }

  /** Filtering a mapped sequence is mapping the filtered sequence, when the
      test on images agrees with a test on originals. */
  lemma {:induction false} FilterMap<A(!new), B(!new)>(s: seq<A>, f: A -> B, p: B -> bool, q: A -> bool)
    requires forall x :: q(x) == p(f(x))
    ensures Filter(Map(f, s), p) == Map(f, Filter(s, q))
  {
    if s != [] {
      assert Map(f, s)[1..] == Map(f, s[1..]);
      FilterMap(s[1..], f, p, q);
    }
  }

  /** Filters on three mutually exclusive tests together keep at most |s| elements. */
  lemma {:induction false} FilterExclusiveCount<T(!new)>(s: seq<T>, p: T -> bool, q: T -> bool, r: T -> bool)
    requires forall x :: !(p(x) && q(x)) && !(p(x) && r(x)) && !(q(x) && r(x))
    ensures |Filter(s, p)| + |Filter(s, q)| + |Filter(s, r)| <= |s|
  {
    if s != [] {
      FilterExclusiveCount(s[1..], p, q, r);
    }
  }

  /** A test and its negation split `s` exactly. */
  lemma {:induction false} FilterComplementCount<T(!new)>(s: seq<T>, p: T -> bool, q: T -> bool)
    requires forall x :: q(x) == !p(x)
    ensures |Filter(s, p)| + |Filter(s, q)| == |s|
  {
    if s != [] {
      FilterComplementCount(s[1..], p, q);
    }
  }
}
