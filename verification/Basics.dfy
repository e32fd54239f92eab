// Shared vocabulary: optional values, weighted sums over sequences, and
// sequences without repetition.
module Basics {

  datatype Option<+T> = None | Some(value: T)

  function Max(a: int, b: int): int {
    if a > b then a else b
  }

  function Bit(b: bool): int {
    if b then 1 else 0
  }

  // ---- weighted sums ------------------------------------------------------

  function Sum<T>(xs: seq<T>, w: T -> int): int {
    if xs == [] then 0 else w(xs[0]) + Sum(xs[1..], w)
  }

  lemma {:induction false} SumUpdate<T>(xs: seq<T>, i: nat, x: T, w: T -> int)
    requires i < |xs|
    ensures Sum(xs[i := x], w) == Sum(xs, w) - w(xs[i]) + w(x)
  {
    if i == 0 {
      assert xs[0 := x][1..] == xs[1..];
    } else {
      SumUpdate(xs[1..], i - 1, x, w);
      assert xs[i := x][1..] == xs[1..][i - 1 := x];
    }
  }

  lemma {:induction false} SumAppend<T>(xs: seq<T>, ys: seq<T>, w: T -> int)
    ensures Sum(xs + ys, w) == Sum(xs, w) + Sum(ys, w)
  {
    if xs == [] {
      assert xs + ys == ys;
    } else {
      assert (xs + ys)[1..] == xs[1..] + ys;
      SumAppend(xs[1..], ys, w);
    }
  }

  // Two weightings that agree on every element have the same sum.
  lemma {:induction false} SumAgree<T>(xs: seq<T>, v: T -> int, w: T -> int)
    requires forall i :: 0 <= i < |xs| ==> v(xs[i]) == w(xs[i])
    ensures Sum(xs, v) == Sum(xs, w)
  {
    if xs != [] {
      assert v(xs[0]) == w(xs[0]);
      forall i | 0 <= i < |xs[1..]| ensures v(xs[1..][i]) == w(xs[1..][i]) {
        assert xs[1..][i] == xs[i + 1];
      }
      SumAgree(xs[1..], v, w);
    }
  }

  // A sum of non-negative weights is at least any one of them.
  lemma {:induction false} SumBound<T>(xs: seq<T>, w: T -> int)
    requires forall i :: 0 <= i < |xs| ==> w(xs[i]) >= 0
    ensures Sum(xs, w) >= 0
    ensures forall i :: 0 <= i < |xs| ==> Sum(xs, w) >= w(xs[i])
  {
    if xs != [] {
      assert w(xs[0]) >= 0;
      forall i | 0 <= i < |xs[1..]| ensures w(xs[1..][i]) >= 0 {
        assert xs[1..][i] == xs[i + 1];
      }
      SumBound(xs[1..], w);
      forall i | 0 <= i < |xs| ensures Sum(xs, w) >= w(xs[i]) {
        if i > 0 {
          assert xs[i] == xs[1..][i - 1];
        }
      }
    }
  }

  // A positive sum has a positive element.
  lemma {:induction false} SumWitness<T>(xs: seq<T>, w: T -> int) returns (i: nat)
    requires Sum(xs, w) > 0
    ensures i < |xs| && w(xs[i]) > 0
  {
    if w(xs[0]) > 0 {
      i := 0;
    } else {
      var j := SumWitness(xs[1..], w);
      i := j + 1;
    }
  }

  lemma {:induction false} SumZero<T>(xs: seq<T>, w: T -> int)
    requires forall i :: 0 <= i < |xs| ==> w(xs[i]) == 0
    ensures Sum(xs, w) == 0
  {
    SumAgree(xs, w, (x: T) => 0);
    SumNothing(xs);
  }

  lemma {:induction false} SumNothing<T>(xs: seq<T>)
    ensures Sum(xs, (x: T) => 0) == 0
  {
    if xs != [] {
      SumNothing(xs[1..]);
    }
  }

  // ---- sequences without repetition --------------------------------------

  ghost predicate Distinct<T>(xs: seq<T>) {
    forall i, j :: 0 <= i < j < |xs| ==> xs[i] != xs[j]
  }

  // The elements of xs outside drop, in order.
  function Without<T(==)>(xs: seq<T>, drop: set<T>): (r: seq<T>)
    ensures forall x | x in r :: x in xs && x !in drop
    ensures forall x | x in xs :: x !in drop ==> x in r
    ensures |r| <= |xs|
  {
    if xs == [] then []
    else if xs[0] in drop then Without(xs[1..], drop)
    else [xs[0]] + Without(xs[1..], drop)
  }

  lemma {:induction false} WithoutDistinct<T>(xs: seq<T>, drop: set<T>)
    requires Distinct(xs)
    ensures Distinct(Without(xs, drop))
  {
    if xs != [] {
      WithoutDistinct(xs[1..], drop);
      assert xs[0] !in xs[1..];
    }
  }

  // Splitting a sequence by membership loses nothing.
  lemma {:induction false} WithoutSplits<T>(xs: seq<T>, drop: set<T>, rest: set<T>)
    requires forall x :: x in xs ==> (x in drop <==> x !in rest)
    ensures |Without(xs, drop)| + |Without(xs, rest)| == |xs|
  {
    if xs != [] {
      assert xs[0] in xs;
      WithoutSplits(xs[1..], drop, rest);
    }
  }

  lemma {:induction false} WithoutAppend<T>(xs: seq<T>, ys: seq<T>, drop: set<T>)
    ensures Without(xs + ys, drop) == Without(xs, drop) + Without(ys, drop)
  {
    if xs == [] {
      assert xs + ys == ys;
    } else {
      assert (xs + ys)[1..] == xs[1..] + ys;
      WithoutAppend(xs[1..], ys, drop);
    }
  }

  // Dropping one element of a sequence without repetition cuts it out in place.
  lemma {:induction false} WithoutOne<T>(xs: seq<T>, i: nat)
    requires i < |xs| && Distinct(xs)
    ensures Without(xs, {xs[i]}) == xs[..i] + xs[i + 1..]
  {
    assert xs == xs[..i] + ([xs[i]] + xs[i + 1..]);
    WithoutAppend(xs[..i], [xs[i]] + xs[i + 1..], {xs[i]});
    WithoutAppend([xs[i]], xs[i + 1..], {xs[i]});
    WithoutNone(xs[..i], {xs[i]});
    WithoutNone(xs[i + 1..], {xs[i]});
  }

  lemma {:induction false} WithoutNone<T>(xs: seq<T>, drop: set<T>)
    requires forall x :: x in xs ==> x !in drop
    ensures Without(xs, drop) == xs
  {
    if xs != [] {
      assert xs[0] in xs;
      WithoutNone(xs[1..], drop);
    }
  }

  // With non-negative weights, dropping elements does not raise the sum.
  lemma {:induction false} SumWithout<T>(xs: seq<T>, drop: set<T>, w: T -> int)
    requires forall x :: w(x) >= 0
    ensures Sum(Without(xs, drop), w) <= Sum(xs, w)
  {
    if xs != [] {
      SumWithout(xs[1..], drop, w);
      assert w(xs[0]) >= 0;
      if xs[0] !in drop {
        assert Without(xs, drop)[1..] == Without(xs[1..], drop);
      }
    }
  }
}
