/** Weighted sums over sequences: every counter of the pool is a sum of a weight over its slots, its
    ticket records or the pins held on it. */
module Sums {
  function Sum<T>(xs: seq<T>, w: T -> int): int {
    if xs == [] then 0 else w(xs[0]) + Sum(xs[1..], w)
  }

  lemma {:induction false} SumAppend<T>(xs: seq<T>, ys: seq<T>, w: T -> int)
    ensures Sum(xs + ys, w) == Sum(xs, w) + Sum(ys, w)
  {
    if xs == [] {
      assert xs + ys == ys;
    } else {
      assert (xs + ys)[1..] == xs[1..] + ys;
      SumAppend(xs[1..], ys, w);
    }
  }

  lemma SumOne<T>(x: T, w: T -> int)
    ensures Sum([x], w) == w(x)
  {
    assert [x][1..] == [];
  }

  lemma {:induction false} SumUpdate<T>(xs: seq<T>, i: nat, x: T, w: T -> int)
    requires i < |xs|
    ensures Sum(xs[i := x], w) == Sum(xs, w) - w(xs[i]) + w(x)
  {
    if i == 0 {
      assert xs[i := x][1..] == xs[1..];
    } else {
      assert xs[i := x][1..] == xs[1..][i - 1 := x];
      SumUpdate(xs[1..], i - 1, x, w);
    }
  }

  lemma {:induction false} SumRemove<T>(xs: seq<T>, i: nat, w: T -> int)
    requires i < |xs|
    ensures Sum(xs[..i] + xs[i + 1..], w) == Sum(xs, w) - w(xs[i])
  {
    assert xs == xs[..i] + ([xs[i]] + xs[i + 1..]);
    SumAppend(xs[..i], [xs[i]] + xs[i + 1..], w);
    SumAppend([xs[i]], xs[i + 1..], w);
    SumAppend(xs[..i], xs[i + 1..], w);
  }

  lemma {:induction false} SumSame<T>(xs: seq<T>, ys: seq<T>, w: T -> int)
    requires |xs| == |ys|
    requires forall i :: 0 <= i < |xs| ==> w(xs[i]) == w(ys[i])
    ensures Sum(xs, w) == Sum(ys, w)
  {
    if xs != [] {
      assert w(xs[0]) == w(ys[0]);
      forall i | 0 <= i < |xs| - 1 ensures w(xs[1..][i]) == w(ys[1..][i]) {
        assert w(xs[i + 1]) == w(ys[i + 1]);
      }
      SumSame(xs[1..], ys[1..], w);
    }
  }

  /** A sum of non-negative weights is non-negative, dominates each term, and is zero only if every
      term is; with weights at most one it is at most the length. */
  lemma {:induction false} SumBounds<T>(xs: seq<T>, w: T -> int)
    requires forall i :: 0 <= i < |xs| ==> 0 <= w(xs[i])
    ensures 0 <= Sum(xs, w)
    ensures forall i :: 0 <= i < |xs| ==> w(xs[i]) <= Sum(xs, w)
    ensures (forall i :: 0 <= i < |xs| ==> w(xs[i]) <= 1) ==> Sum(xs, w) <= |xs|
    ensures (forall i :: 0 <= i < |xs| ==> w(xs[i]) == 0) ==> Sum(xs, w) == 0
    ensures 0 < Sum(xs, w) ==> exists i :: 0 <= i < |xs| && 0 < w(xs[i])
  {
    if xs != [] {
      var tail := xs[1..];
      forall i | 0 <= i < |tail| ensures 0 <= w(tail[i]) { assert tail[i] == xs[i + 1]; }
      SumBounds(tail, w);
      forall i | 0 <= i < |xs| ensures w(xs[i]) <= Sum(xs, w) {
        if i > 0 { assert xs[i] == tail[i - 1]; }
      }
      if 0 < Sum(xs, w) {
        if w(xs[0]) == 0 {
          var i :| 0 <= i < |tail| && 0 < w(tail[i]);
          assert 0 < w(xs[i + 1]);
        }
      }
    }
  }

  /** The first `n` naturals, as a set. */
  function Below(n: nat): (s: set<int>)
    ensures |s| == n
    ensures forall x :: x in s <==> 0 <= x < n
  {
    if n == 0 then {} else Below(n - 1) + {n - 1}
  }

  lemma SubsetSize<T>(a: set<T>, b: set<T>)
    requires a <= b
    ensures |a| <= |b|
    ensures |a| == |b| ==> a == b
  {
    assert b == a + (b - a);
  }
}
