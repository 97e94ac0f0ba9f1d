/**
 Order-preserving selection over sequences: the `Array.prototype.filter`
 behaviour that both the transaction search and the alert list rely on.
 */
module Seqs {

  /** `a` can be obtained from `b` by deleting elements, keeping the order. */
  predicate IsSubsequence<T(==)>(a: seq<T>, b: seq<T>)
    decreases |b|
  {
    || a == []
    || (b != [] && ((a[0] == b[0] && IsSubsequence(a[1..], b[1..])) || IsSubsequence(a, b[1..])))
  }

  /** Every sequence is a subsequence of itself. */
  lemma {:induction false} SubsequenceReflexive<T>(s: seq<T>)
    ensures IsSubsequence(s, s)
    decreases |s|
  {
    if s != [] {
      SubsequenceReflexive(s[1..]);
    }
  }

  /** Keeps, in order, exactly the elements that satisfy `p`. */
  function Filter<T>(p: T -> bool, s: seq<T>): (r: seq<T>)
    ensures |r| <= |s|
    ensures forall i :: 0 <= i < |r| ==> p(r[i])
    decreases |s|
  {
    if s == [] then []
    else
      var rest := Filter(p, s[1..]);
      if p(s[0]) then [s[0]] + rest else rest
  }

  /** Every element satisfying `p` is kept as often as it occurs in `s`;
      every other element is dropped. */
  lemma {:induction false} FilterMultiset<T(!new)>(p: T -> bool, s: seq<T>)
    ensures forall x :: multiset(Filter(p, s))[x] == if p(x) then multiset(s)[x] else 0
    decreases |s|
  {
    if s != [] {
      FilterMultiset(p, s[1..]);
      assert s == [s[0]] + s[1..];
    }
  }

  /** The kept elements are in their original order. */
  lemma {:induction false} FilterSubsequence<T>(p: T -> bool, s: seq<T>)
    ensures IsSubsequence(Filter(p, s), s)
    decreases |s|
  {
    if s != [] {
      FilterSubsequence(p, s[1..]);
    }
  }

  /** Filtering decides the first element, then filters the rest. */
  lemma FilterCons<T(!new)>(p: T -> bool, s: seq<T>)
    requires s != []
    ensures Filter(p, s) == (if p(s[0]) then [s[0]] else []) + Filter(p, s[1..])
  {
  }

  /** An element of `s` is kept if and only if it satisfies `p`. */
  lemma FilterMembership<T(!new)>(p: T -> bool, s: seq<T>, x: T)
    requires x in s
    ensures x in Filter(p, s) <==> p(x)
  {
    FilterMultiset(p, s);
    assert multiset(s)[x] > 0;
  }

  /** When every element satisfies `p`, nothing is removed. */
  lemma {:induction false} FilterKeepsAll<T(!new)>(p: T -> bool, s: seq<T>)
    requires forall i :: 0 <= i < |s| ==> p(s[i])
    ensures Filter(p, s) == s
    decreases |s|
  {
    if s != [] {
      FilterKeepsAll(p, s[1..]);
    }
  }

  /** Filtering twice with the same predicate is filtering once. */
  lemma FilterIdempotent<T(!new)>(p: T -> bool, s: seq<T>)
    ensures Filter(p, Filter(p, s)) == Filter(p, s)
  {
    FilterKeepsAll(p, Filter(p, s));
  }

  /** Two predicates that agree on every element select the same elements. */
  lemma {:induction false} FilterCongruent<T(!new)>(p: T -> bool, q: T -> bool, s: seq<T>)
    requires forall i :: 0 <= i < |s| ==> p(s[i]) == q(s[i])
    ensures Filter(p, s) == Filter(q, s)
    decreases |s|
  {
    if s != [] {
      FilterCongruent(p, q, s[1..]);
    }
  }

  /** Filtering a concatenation filters each part. */
  lemma {:induction false} FilterAppend<T>(p: T -> bool, a: seq<T>, b: seq<T>)
    ensures Filter(p, a + b) == Filter(p, a) + Filter(p, b)
    decreases |a|
  {
    if a != [] {
      FilterAppend(p, a[1..], b);
      assert (a + b)[1..] == a[1..] + b;
    } else {
      assert a + b == b;
    }
  }

  /** Filtering one element keeps it exactly when it satisfies `p`. */
  lemma FilterSingle<T>(p: T -> bool, x: T)
    ensures Filter(p, [x]) == if p(x) then [x] else []
  {
    assert [x][1..] == [];
  }

  /** `Filter` on four elements, decided one element at a time. */
  lemma FilterFour<T>(p: T -> bool, s: seq<T>)
    requires |s| == 4
    ensures Filter(p, s) ==
      (if p(s[0]) then [s[0]] else []) + (if p(s[1]) then [s[1]] else []) +
      (if p(s[2]) then [s[2]] else []) + (if p(s[3]) then [s[3]] else [])
  {
    var a, b, c, d := [s[0]], [s[1]], [s[2]], [s[3]];
    assert s == a + b + c + d;
    FilterAppend(p, a + b + c, d);
    FilterAppend(p, a + b, c);
    FilterAppend(p, a, b);
    FilterSingle(p, s[0]);
    FilterSingle(p, s[1]);
    FilterSingle(p, s[2]);
    FilterSingle(p, s[3]);
  }

  /** `Filter` on five elements, decided one element at a time. */
  lemma FilterFive<T>(p: T -> bool, s: seq<T>)
    requires |s| == 5
    ensures Filter(p, s) ==
      (if p(s[0]) then [s[0]] else []) + (if p(s[1]) then [s[1]] else []) +
      (if p(s[2]) then [s[2]] else []) + (if p(s[3]) then [s[3]] else []) +
      (if p(s[4]) then [s[4]] else [])
  {
    assert s == s[..4] + [s[4]];
    FilterAppend(p, s[..4], [s[4]]);
    FilterFour(p, s[..4]);
    FilterSingle(p, s[4]);
  }
}
