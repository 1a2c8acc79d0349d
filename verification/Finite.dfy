/** Cardinalities of finite sets and duplicate-free sequences. */
module Finite {

  ghost predicate Distinct<T>(s: seq<T>) {
    forall j, k :: 0 <= j < k < |s| ==> s[j] != s[k]
  }

  ghost function Elements<T>(s: seq<T>): set<T> {
    set x | x in s
  }

  /** The first n natural numbers. */
  ghost function Below(n: nat): (s: set<nat>)
    ensures forall i :: i in s <==> 0 <= i < n
    ensures |s| == n
  {
    if n == 0 then {} else Below(n - 1) + {n - 1}
  }

  lemma {:induction false} SubsetCardinality<T>(a: set<T>, b: set<T>)
    requires a <= b
    ensures |a| <= |b| && (|a| == |b| ==> a == b)
  {
    if a != {} {
      var x :| x in a;
      SubsetCardinality(a - {x}, b - {x});
      if |a| == |b| { assert a == (a - {x}) + {x} && b == (b - {x}) + {x}; }
    }
  }

  lemma {:induction false} CardinalityOfDistinct<T>(s: seq<T>)
    requires Distinct(s)
    ensures |s| == |Elements(s)|
  {
    if s != [] {
      var front, last := s[..|s| - 1], s[|s| - 1];
      CardinalityOfDistinct(front);
      assert Elements(s) == Elements(front) + {last};
      assert last !in front;
    }
  }

  /** A duplicate-free sequence of numbers below n has at most n of them, and all of them when it has n. */
  lemma DistinctBelow(s: seq<nat>, n: nat)
    requires Distinct(s) && forall k :: 0 <= k < |s| ==> s[k] < n
    ensures |s| <= n
    ensures |s| == n ==> forall i: nat :: i < n ==> i in s
  {
    CardinalityOfDistinct(s);
    assert Elements(s) <= Below(n);
    SubsetCardinality(Elements(s), Below(n));
    if |s| == n {
      forall i: nat | i < n ensures i in s { assert i in Elements(s); }
    }
  }

  lemma DistinctSnoc<T>(s: seq<T>, x: T)
    requires Distinct(s) && x !in s
    ensures Distinct(s + [x])
  {
    forall j | 0 <= j < |s| ensures s[j] != x { assert s[j] in s; }
  }
}
