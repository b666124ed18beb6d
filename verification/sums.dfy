/** Increasing sequences, and finite sums over sequences and how they change under one update. */
module Sums {

  predicate Increasing(xs: seq<nat>) { forall i, j :: 0 <= i < j < |xs| ==> xs[i] < xs[j] }

  function Sum<T>(xs: seq<T>, w: T -> nat): nat {
    if xs == [] then 0 else Sum(xs[..|xs| - 1], w) + w(xs[|xs| - 1])
  }

  lemma {:induction false} SumUpdate<T>(xs: seq<T>, i: nat, x: T, w: T -> nat)
    requires i < |xs|
    ensures Sum(xs[i := x], w) + w(xs[i]) == Sum(xs, w) + w(x)
  {
    var n := |xs| - 1;
    if i == n {
      assert xs[i := x][..n] == xs[..n];
    } else {
      assert xs[i := x][..n] == xs[..n][i := x];
      SumUpdate(xs[..n], i, x, w);
    }
  }

  lemma SumAppend<T>(xs: seq<T>, x: T, w: T -> nat)
    ensures Sum(xs + [x], w) == Sum(xs, w) + w(x)
  {
    assert (xs + [x])[..|xs|] == xs;
  }

  lemma {:induction false} SumFirst<T>(xs: seq<T>, w: T -> nat)
    requires xs != []
    ensures Sum(xs, w) == w(xs[0]) + Sum(xs[1..], w)
  {
    var n := |xs| - 1;
    if n > 0 {
      SumFirst(xs[..n], w);
      assert xs[..n][1..] == xs[1..][..n - 1];
    }
  }

  lemma {:induction false} SumAtLeast<T>(xs: seq<T>, i: nat, w: T -> nat)
    requires i < |xs|
    ensures Sum(xs, w) >= w(xs[i])
  {
    var n := |xs| - 1;
    if i < n {
      SumAtLeast(xs[..n], i, w);
    }
  }

  lemma {:induction false} SumZero<T>(xs: seq<T>, w: T -> nat)
    requires forall i :: 0 <= i < |xs| ==> w(xs[i]) == 0
    ensures Sum(xs, w) == 0
  {
    if xs != [] {
      SumZero(xs[..|xs| - 1], w);
    }
  }

  lemma {:induction false} SumInsert<T>(xs: seq<T>, at: nat, x: T, w: T -> nat)
    requires at <= |xs|
    ensures Sum(xs[..at] + [x] + xs[at..], w) == Sum(xs, w) + w(x)
    decreases |xs|
  {
    var n := |xs| - 1;
    if at == |xs| {
      assert xs[..at] + [x] + xs[at..] == xs + [x] && (xs + [x])[..|xs|] == xs;
    } else {
      SumInsert(xs[..n], at, x, w);
      var ys := xs[..at] + [x] + xs[at..];
      assert ys[..n + 1] == xs[..n][..at] + [x] + xs[..n][at..];
    }
  }
}
