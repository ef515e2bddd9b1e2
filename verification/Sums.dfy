/** Sums over sequences, and how they follow an update or an append. */
module Sums {
  function Sum<T>(xs: seq<T>, f: T -> int): int {
    if xs == [] then 0 else Sum(xs[..|xs| - 1], f) + f(xs[|xs| - 1])
  }

  lemma SumAppend<T>(xs: seq<T>, x: T, f: T -> int)
    ensures Sum(xs + [x], f) == Sum(xs, f) + f(x)
  {
    assert (xs + [x])[..|xs|] == xs;
  }

  lemma {:induction false} SumUpdate<T>(xs: seq<T>, i: nat, x: T, f: T -> int)
    requires i < |xs|
    ensures Sum(xs[i := x], f) == Sum(xs, f) - f(xs[i]) + f(x)
  {
    var n := |xs| - 1;
    if i == n {
      assert xs[i := x][..n] == xs[..n];
    } else {
      assert xs[i := x][..n] == xs[..n][i := x];
      SumUpdate(xs[..n], i, x, f);
    }
  }

  lemma {:induction false} SumNonNegative<T>(xs: seq<T>, f: T -> int)
    requires forall i :: 0 <= i < |xs| ==> f(xs[i]) >= 0
    ensures Sum(xs, f) >= 0
  {
    if xs != [] {
      SumNonNegative(xs[..|xs| - 1], f);
    }
  }

  lemma {:induction false} SumZero<T>(xs: seq<T>, f: T -> int)
    requires forall i :: 0 <= i < |xs| ==> f(xs[i]) == 0
    ensures Sum(xs, f) == 0
  {
    if xs != [] {
      SumZero(xs[..|xs| - 1], f);
    }
  }

  /** A member of a non-negative sum is at most the sum. */
  lemma {:induction false} SumMember<T>(xs: seq<T>, i: nat, f: T -> int)
    requires i < |xs| && forall k :: 0 <= k < |xs| ==> f(xs[k]) >= 0
    ensures f(xs[i]) <= Sum(xs, f)
  {
    var n := |xs| - 1;
    if i < n {
      SumMember(xs[..n], i, f);
    } else {
      SumNonNegative(xs[..n], f);
    }
  }

  /** Two members together are at most the sum too. */
  lemma {:induction false} SumPair<T>(xs: seq<T>, i: nat, k: nat, f: T -> int)
    requires i < k < |xs| && forall l :: 0 <= l < |xs| ==> f(xs[l]) >= 0
    ensures f(xs[i]) + f(xs[k]) <= Sum(xs, f)
    decreases |xs|
  {
    var n := |xs| - 1;
    if k < n { SumPair(xs[..n], i, k, f); } else { SumMember(xs[..n], i, f); }
  }
}
