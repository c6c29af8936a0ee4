/** `Array.prototype.filter` and the order-preserving sub-list relation it produces. */
module Sequences {

  /** `xs` is `ys` with some elements left out, the rest in their original order. */
  predicate IsSubsequence<T(==)>(xs: seq<T>, ys: seq<T>)
    decreases |ys|
  {
    if xs == [] then true
    else if ys == [] then false
    else if xs[0] == ys[0] then IsSubsequence(xs[1..], ys[1..])
    else IsSubsequence(xs, ys[1..])
  }

  /** A sub-list is never longer than the list it is taken from. */
  lemma {:induction false} SubsequenceNoLonger<T>(xs: seq<T>, ys: seq<T>)
    requires IsSubsequence(xs, ys)
    ensures |xs| <= |ys|
    decreases |ys|
  {
    if xs != [] {
      if xs[0] == ys[0] {
        SubsequenceNoLonger(xs[1..], ys[1..]);
      } else {
        SubsequenceNoLonger(xs, ys[1..]);
      }
    }
  }

  /**
   * `xs.filter(keep)`: exactly the elements that pass are kept, in their
   * original order.
   */
  function Filter<T(==,!new)>(xs: seq<T>, keep: T -> bool): (r: seq<T>)
    ensures forall i :: 0 <= i < |r| ==> r[i] in xs && keep(r[i])
    ensures forall i :: 0 <= i < |xs| && keep(xs[i]) ==> xs[i] in r
    ensures IsSubsequence(r, xs)
    ensures forall x :: multiset(r)[x] == if keep(x) then multiset(xs)[x] else 0
  {
    if xs == [] then []
    else
      assert xs == [xs[0]] + xs[1..];
      if keep(xs[0]) then [xs[0]] + Filter(xs[1..], keep)
      else Filter(xs[1..], keep)
  }

  /** When every element passes, filtering changes nothing. */
  lemma {:induction false} FilterKeepsAll<T(!new)>(xs: seq<T>, keep: T -> bool)
    requires forall i :: 0 <= i < |xs| ==> keep(xs[i])
    ensures Filter(xs, keep) == xs
  {
    if xs != [] {
      FilterKeepsAll(xs[1..], keep);
      assert [xs[0]] + xs[1..] == xs;
    }
  }

  /** Two tests that agree on every element filter alike. */
  lemma {:induction false} FilterAgrees<T(!new)>(xs: seq<T>, k1: T -> bool, k2: T -> bool)
    requires forall i :: 0 <= i < |xs| ==> k1(xs[i]) == k2(xs[i])
    ensures Filter(xs, k1) == Filter(xs, k2)
  {
    if xs != [] {
      FilterAgrees(xs[1..], k1, k2);
    }
  }
}
