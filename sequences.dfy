/** Order-preserving filtering of sequences and the facts about it the catalog needs. */
module Sequences {

  /** The elements of `s` that satisfy `p`, in their original order (Swift's `filter`). */
  function Filter<T(!new)>(s: seq<T>, p: T -> bool): (r: seq<T>)
    ensures |r| <= |s|
  {
    if s == [] then [] else (if p(s[0]) then [s[0]] else []) + Filter(s[1..], p)
  }

  /** The filtered sequence holds exactly the elements of `s` that satisfy `p`. */
  lemma {:induction false} FilterMembers<T(!new)>(s: seq<T>, p: T -> bool)
    ensures forall x :: x in Filter(s, p) <==> x in s && p(x)
  {
    if s != [] {
      FilterMembers(s[1..], p);
      assert s == [s[0]] + s[1..];
    }
  }

  /** Every element satisfying `p` comes before every element that does not. */
  ghost predicate Partitioned<T(!new)>(s: seq<T>, p: T -> bool) {
    forall i, j :: 0 <= i < j < |s| && p(s[j]) ==> p(s[i])
  }

  lemma {:induction false} FilterConcat<T(!new)>(a: seq<T>, b: seq<T>, p: T -> bool)
    ensures Filter(a + b, p) == Filter(a, p) + Filter(b, p)
  {
    if a == [] {
      assert a + b == b;
    } else {
      var head := if p(a[0]) then [a[0]] else [];
      assert (a + b)[0] == a[0];
      assert (a + b)[1..] == a[1..] + b;
      FilterConcat(a[1..], b, p);
      calc {
        Filter(a + b, p);
        head + Filter(a[1..] + b, p);
        head + (Filter(a[1..], p) + Filter(b, p));
        (head + Filter(a[1..], p)) + Filter(b, p);
        Filter(a, p) + Filter(b, p);
      }
    }
  }

  lemma {:induction false} FilterKeepsAll<T(!new)>(s: seq<T>, p: T -> bool)
    requires forall i :: 0 <= i < |s| ==> p(s[i])
    ensures Filter(s, p) == s
  {
    if s != [] {
      FilterKeepsAll(s[1..], p);
    }
  }

  lemma {:induction false} FilterDropsAll<T(!new)>(s: seq<T>, p: T -> bool)
    requires forall i :: 0 <= i < |s| ==> !p(s[i])
    ensures Filter(s, p) == []
  {
    if s != [] {
      FilterDropsAll(s[1..], p);
    }
  }

  /** Filtering by `p` and by its complement `q` splits `s` into two parts of the same multiset. */
  lemma {:induction false} FilterComplementMultiset<T(!new)>(s: seq<T>, p: T -> bool, q: T -> bool)
    requires forall x :: q(x) == !p(x)
    ensures multiset(Filter(s, p)) + multiset(Filter(s, q)) == multiset(s)
  {
    if s != [] {
      var rest, a, b := s[1..], Filter(s[1..], p), Filter(s[1..], q);
      FilterComplementMultiset(rest, p, q);
      assert s == [s[0]] + rest;
      assert multiset(s) == multiset([s[0]]) + multiset(rest);
      if p(s[0]) {
        assert !q(s[0]);
        assert Filter(s, p) == [s[0]] + a;
        assert Filter(s, q) == [] + b && [] + b == b;
      } else {
        assert q(s[0]);
        assert Filter(s, p) == [] + a && [] + a == a;
        assert Filter(s, q) == [s[0]] + b;
      }
    }
  }

  /** Filtering twice is filtering once by the conjunction. */
  lemma {:induction false} FilterFilter<T(!new)>(s: seq<T>, p: T -> bool, q: T -> bool, pq: T -> bool)
    requires forall x :: pq(x) == (p(x) && q(x))
    ensures Filter(Filter(s, p), q) == Filter(s, pq)
  {
    if s != [] {
      FilterFilter(s[1..], p, q, pq);
      if p(s[0]) {
        var tail := Filter(s[1..], p);
        assert Filter(s, p) == [s[0]] + tail;
        assert ([s[0]] + tail)[0] == s[0];
        assert ([s[0]] + tail)[1..] == tail;
        assert Filter([s[0]] + tail, q) == (if q(s[0]) then [s[0]] else []) + Filter(tail, q);
        assert pq(s[0]) == q(s[0]);
      } else {
        assert !pq(s[0]);
        assert Filter(s, p) == Filter(s[1..], p);
        assert Filter(s, pq) == Filter(s[1..], pq);
      }
    }
  }

  /** The first element of `Filter(s, p)` is the first element of `s` satisfying `p`. */
  lemma {:induction false} FilterFirst<T(!new)>(s: seq<T>, p: T -> bool, i: nat)
    requires i < |s| && p(s[i])
    requires forall j :: 0 <= j < i ==> !p(s[j])
    ensures Filter(s, p) != [] && Filter(s, p)[0] == s[i]
  {
    if i > 0 {
      FilterFirst(s[1..], p, i - 1);
    }
  }

  lemma PartitionedTail<T(!new)>(s: seq<T>, p: T -> bool)
    requires s != [] && Partitioned(s, p)
    ensures Partitioned(s[1..], p)
  {
    forall i, j | 0 <= i < j < |s[1..]| && p(s[1..][j]) ensures p(s[1..][i]) {
      assert s[1..][j] == s[j + 1] && s[1..][i] == s[i + 1];
    }
  }

  lemma PartitionedNoneAfterMiss<T(!new)>(s: seq<T>, p: T -> bool)
    requires s != [] && Partitioned(s, p) && !p(s[0])
    ensures forall i :: 0 <= i < |s| ==> !p(s[i])
  {
  }

  /** A sequence with no element satisfying `p` is its (empty) `p` part followed by its complement part. */
  lemma SplitsWithoutHits<T(!new)>(s: seq<T>, p: T -> bool, q: T -> bool)
    requires forall x :: q(x) == !p(x)
    requires forall i :: 0 <= i < |s| ==> !p(s[i])
    ensures s == Filter(s, p) + Filter(s, q)
  {
    forall i | 0 <= i < |s| ensures q(s[i]) {
      assert !p(s[i]);
    }
    FilterDropsAll(s, p);
    FilterKeepsAll(s, q);
  }

  /** Splitting extends from the tail to a sequence whose head satisfies `p`. */
  lemma SplitsWithHit<T(!new)>(s: seq<T>, p: T -> bool, q: T -> bool)
    requires s != [] && p(s[0]) && !q(s[0])
    requires s[1..] == Filter(s[1..], p) + Filter(s[1..], q)
    ensures s == Filter(s, p) + Filter(s, q)
  {
    var rest, a, b := s[1..], Filter(s[1..], p), Filter(s[1..], q);
    assert Filter(s, p) == [s[0]] + a;
    assert Filter(s, q) == [] + b;
    assert [] + b == b;
    assert s == [s[0]] + rest;
    ConcatAssoc([s[0]], a, b);
  }

  /**
   * Regrouping a concatenation. Dafny knows this on its own, but stating it in
   * `SplitsWithHit`'s context, among the unfolded filters, is far costlier
   * than calling it as a lemma.
   */
  lemma ConcatAssoc<T>(a: seq<T>, b: seq<T>, c: seq<T>)
    ensures a + (b + c) == (a + b) + c
  {
  }

  /** A partitioned sequence is its `p` part followed by its complement part. */
  lemma {:induction false} PartitionedSplits<T(!new)>(s: seq<T>, p: T -> bool, q: T -> bool)
    requires forall x :: q(x) == !p(x)
    requires Partitioned(s, p)
    ensures s == Filter(s, p) + Filter(s, q)
  {
    if s != [] {
      if p(s[0]) {
        PartitionedTail(s, p);
        PartitionedSplits(s[1..], p, q);
        SplitsWithHit(s, p, q);
      } else {
        PartitionedNoneAfterMiss(s, p);
        SplitsWithoutHits(s, p, q);
      }
    }
  }
}
