/**
 * The two list operations the pages build on: `Array.prototype.filter` and a stable
 * `Array.prototype.sort` by a numeric key.
 */
module Seqs {

  /** `r` is `xs` with some elements left out and the rest in their original order. */
  predicate IsSubsequence<T(==, !new)>(r: seq<T>, xs: seq<T>)
    decreases |xs|
  {
    r == [] || (xs != [] && if r[0] == xs[0] then IsSubsequence(r[1..], xs[1..]) else IsSubsequence(r, xs[1..]))
  }

  /**
   * `xs.filter(p)`: the elements satisfying `p`, in order. Each such element occurs as
   * often as in `xs`, every other element not at all.
   */
  function Filter<T(==, !new)>(xs: seq<T>, p: T -> bool): (r: seq<T>)
    ensures IsSubsequence(r, xs)
    ensures forall i :: 0 <= i < |r| ==> p(r[i])
    ensures forall x :: multiset(r)[x] == if p(x) then multiset(xs)[x] else 0
  {
    if xs == [] then []
    else
      var rest := Filter(xs[1..], p);
      assert xs == [xs[0]] + xs[1..];
      if p(xs[0]) then [xs[0]] + rest
      else
        assert rest == [] || rest[0] != xs[0];
        rest
  }

  /** Membership in a filtered list. */
  lemma {:induction false} FilterMember<T(!new)>(xs: seq<T>, p: T -> bool, x: T)
    ensures x in Filter(xs, p) <==> x in xs && p(x)
  {
    var r := Filter(xs, p);
    assert x in r <==> multiset(r)[x] > 0;
    assert x in xs <==> multiset(xs)[x] > 0;
  }

  /** A filtered list is a sub-multiset of the list: nothing is invented or duplicated. */
  lemma {:induction false} FilterSubMultiset<T(!new)>(xs: seq<T>, p: T -> bool)
    ensures multiset(Filter(xs, p)) <= multiset(xs)
  {
    var r := Filter(xs, p);
    forall x ensures multiset(r)[x] <= multiset(xs)[x] {
    }
  }

  /** Every list is a subsequence of itself. */
  lemma {:induction false} SubsequenceOfSelf<T(!new)>(xs: seq<T>)
    ensures IsSubsequence(xs, xs)
    decreases |xs|
  {
    if xs != [] {
      SubsequenceOfSelf(xs[1..]);
    }
  }

  /** Filters whose predicates agree on the elements of `xs` give the same list. */
  lemma {:induction false} FilterCongruent<T(!new)>(xs: seq<T>, p: T -> bool, q: T -> bool)
    requires forall i :: 0 <= i < |xs| ==> p(xs[i]) == q(xs[i])
    ensures Filter(xs, p) == Filter(xs, q)
    decreases |xs|
  {
    if xs != [] {
      FilterCongruent(xs[1..], p, q);
    }
  }

  /** Keys never decrease along `xs`. */
  predicate SortedBy<T>(xs: seq<T>, key: T -> real)
  {
    forall i, j :: 0 <= i < j < |xs| ==> key(xs[i]) <= key(xs[j])
  }

  /** Put `x` in front of the first element whose key is not smaller. */
  function Insert<T>(x: T, ys: seq<T>, key: T -> real): (r: seq<T>)
    requires SortedBy(ys, key)
    ensures SortedBy(r, key)
    ensures multiset(r) == multiset(ys) + multiset{x}
    ensures |r| == |ys| + 1
    ensures r[0] == x || (ys != [] && r[0] == ys[0])
  {
    if ys == [] || key(x) <= key(ys[0]) then
      [x] + ys
    else
      var rest := Insert(x, ys[1..], key);
      assert ys == [ys[0]] + ys[1..];
      [ys[0]] + rest
  }

  /**
   * `xs.sort((a, b) => key(a) - key(b))`: the elements of `xs` by non-decreasing key;
   * elements with equal keys keep their order (insertion sort).
   */
  function SortBy<T>(xs: seq<T>, key: T -> real): (r: seq<T>)
    ensures SortedBy(r, key)
    ensures multiset(r) == multiset(xs)
    ensures |r| == |xs|
  {
    if xs == [] then []
    else
      assert xs == [xs[0]] + xs[1..];
      Insert(xs[0], SortBy(xs[1..], key), key)
  }
}
