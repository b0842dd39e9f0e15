/** Sums of natural numbers over sequences, used to count what the threads of a network still owe. */
module Tallies {

  ghost function Sum<A(!new)>(xs: seq<A>, f: A -> nat): nat {
    if |xs| == 0 then 0 else f(xs[0]) + Sum(xs[1..], f)
  }

  lemma SumOne<A(!new)>(x: A, f: A -> nat)
    ensures Sum([x], f) == f(x)
  {
  }

  lemma {:induction false} SumConcat<A(!new)>(xs: seq<A>, ys: seq<A>, f: A -> nat)
    ensures Sum(xs + ys, f) == Sum(xs, f) + Sum(ys, f)
  {
    if |xs| == 0 {
      assert xs + ys == ys;
    } else {
      assert (xs + ys)[1..] == xs[1..] + ys;
      SumConcat(xs[1..], ys, f);
    }
  }

  lemma {:induction false} SumUpdate<A(!new)>(xs: seq<A>, i: nat, y: A, f: A -> nat)
    requires i < |xs|
    ensures Sum(xs[i := y], f) + f(xs[i]) == Sum(xs, f) + f(y)
  {
    assert xs == xs[..i] + [xs[i]] + xs[i + 1..];
    assert xs[i := y] == xs[..i] + [y] + xs[i + 1..];
    SumConcat(xs[..i] + [xs[i]], xs[i + 1..], f);
    SumConcat(xs[..i] + [y], xs[i + 1..], f);
    SumConcat(xs[..i], [xs[i]], f);
    SumConcat(xs[..i], [y], f);
    SumOne(xs[i], f);
    SumOne(y, f);
  }

  /** A positive sum has a positive term. */
  lemma {:induction false} SumFind<A(!new)>(xs: seq<A>, f: A -> nat) returns (i: nat)
    requires Sum(xs, f) > 0
    ensures i < |xs| && f(xs[i]) > 0
  {
    if f(xs[0]) > 0 {
      i := 0;
    } else {
      i := SumFind(xs[1..], f);
      i := i + 1;
    }
  }

  lemma SumContains<A(!new)>(xs: seq<A>, f: A -> nat, i: nat)
    requires i < |xs|
    ensures f(xs[i]) <= Sum(xs, f)
  {
    assert xs == xs[..i] + [xs[i]] + xs[i + 1..];
    SumConcat(xs[..i] + [xs[i]], xs[i + 1..], f);
    SumConcat(xs[..i], [xs[i]], f);
    SumOne(xs[i], f);
  }

  lemma {:induction false} SumEqual<A(!new)>(xs: seq<A>, f: A -> nat, g: A -> nat)
    requires forall x :: x in xs ==> f(x) == g(x)
    ensures Sum(xs, f) == Sum(xs, g)
  {
    if |xs| > 0 {
      SumEqual(xs[1..], f, g);
    }
  }

  lemma {:induction false} SumOfNothing<A(!new)>(xs: seq<A>, f: A -> nat)
    requires forall i :: 0 <= i < |xs| ==> f(xs[i]) == 0
    ensures Sum(xs, f) == 0
  {
    if |xs| > 0 {
      SumOfNothing(xs[1..], f);
    }
  }
}
