// Sums over sequences.
module Sums {
  import opened Transactions

  /** What `f` makes of the elements, added up. */
  function Sum<T>(xs: seq<T>, f: T -> nat): nat {
    if xs == [] then 0 else Sum(xs[..|xs| - 1], f) + f(xs[|xs| - 1])
  }

  function Itself(x: nat): nat { x }

  function Total(xs: seq<nat>): nat {
    Sum(xs, Itself)
  }

  lemma SumSnoc<T>(xs: seq<T>, x: T, f: T -> nat)
    ensures Sum(xs + [x], f) == Sum(xs, f) + f(x)
  {
    assert (xs + [x])[..|xs|] == xs;
  }

  lemma {:induction false} SumConcat<T>(xs: seq<T>, ys: seq<T>, f: T -> nat)
    ensures Sum(xs + ys, f) == Sum(xs, f) + Sum(ys, f)
  {
    if ys == [] {
      assert xs + ys == xs;
    } else {
      var init, y := ys[..|ys| - 1], ys[|ys| - 1];
      assert xs + ys == (xs + init) + [y];
      SumSnoc(xs + init, y, f);
      SumConcat(xs, init, f);
    }
  }

  lemma SumFirst<T>(xs: seq<T>, f: T -> nat)
    requires xs != []
    ensures Sum(xs, f) == f(xs[0]) + Sum(xs[1..], f)
  {
    SumSnoc([], xs[0], f);
    assert [] + [xs[0]] == [xs[0]] && xs == [xs[0]] + xs[1..];
    SumConcat([xs[0]], xs[1..], f);
  }

  lemma SumWithout<T>(xs: seq<T>, i: nat, f: T -> nat)
    requires i < |xs|
    ensures Sum(Without(xs, i), f) == Sum(xs, f) - f(xs[i])
  {
    hide Sum;
    assert xs == (xs[..i] + [xs[i]]) + xs[i + 1..];
    SumConcat(xs[..i] + [xs[i]], xs[i + 1..], f);
    SumSnoc(xs[..i], xs[i], f);
    SumConcat(xs[..i], xs[i + 1..], f);
  }

  lemma SumUpdate<T>(xs: seq<T>, i: nat, x: T, f: T -> nat)
    requires i < |xs|
    ensures Sum(xs[i := x], f) == Sum(xs, f) - f(xs[i]) + f(x)
  {
    SumWithout(xs, i, f);
    SumWithout(xs[i := x], i, f);
    assert Without(xs[i := x], i) == Without(xs, i);
  }

  lemma {:induction false} SumZero(xs: seq<nat>)
    requires forall i :: 0 <= i < |xs| ==> xs[i] == 0
    ensures Total(xs) == 0
  {
    if xs != [] {
      SumZero(xs[..|xs| - 1]);
    }
  }
}
