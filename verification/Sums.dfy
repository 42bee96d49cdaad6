// Sums of a weight over a sequence, and how they change under the sequence
// updates the protocol performs. The sync engine uses them to count events.
module Sums {

  function Sum<T>(xs: seq<T>, f: T -> nat): nat {
    if xs == [] then 0 else f(xs[0]) + Sum(xs[1..], f)
  }

  lemma {:induction false} SumAppend<T>(xs: seq<T>, x: T, f: T -> nat)
    ensures Sum(xs + [x], f) == Sum(xs, f) + f(x)
  {
    if xs == [] {
      assert [] + [x] == [x];
    } else {
      assert (xs + [x])[1..] == xs[1..] + [x];
      SumAppend(xs[1..], x, f);
    }
  }

  lemma {:induction false} SumUpdate<T>(xs: seq<T>, i: nat, x: T, f: T -> nat)
    requires i < |xs|
    ensures Sum(xs[i := x], f) + f(xs[i]) == Sum(xs, f) + f(x)
  {
    if i == 0 {
      assert xs[0 := x][1..] == xs[1..];
    } else {
      assert xs[i := x][1..] == xs[1..][i - 1 := x];
      SumUpdate(xs[1..], i - 1, x, f);
    }
  }

  lemma {:induction false} SumMember<T>(xs: seq<T>, i: nat, f: T -> nat)
    requires i < |xs|
    ensures f(xs[i]) <= Sum(xs, f)
  {
    if i > 0 {
      SumMember(xs[1..], i - 1, f);
    }
  }

  lemma {:induction false} SumPositive<T>(xs: seq<T>, f: T -> nat) returns (i: nat)
    requires Sum(xs, f) > 0
    ensures i < |xs| && f(xs[i]) > 0
  {
    if f(xs[0]) > 0 {
      i := 0;
    } else {
      var j := SumPositive(xs[1..], f);
      i := j + 1;
    }
  }

  lemma {:induction false} SumAtMostLength<T>(xs: seq<T>, f: T -> nat)
    requires forall i | 0 <= i < |xs| :: f(xs[i]) <= 1
    ensures Sum(xs, f) <= |xs|
  {
    if xs != [] {
      SumAtMostLength(xs[1..], f);
    }
  }

  lemma {:induction false} SumFull<T>(xs: seq<T>, f: T -> nat)
    requires forall i | 0 <= i < |xs| :: f(xs[i]) == 1
    ensures Sum(xs, f) == |xs|
  {
    if xs != [] {
      SumFull(xs[1..], f);
    }
  }

  // A sum of at most one whenever no two positions weigh.
  lemma {:induction false} SumAtMostOne<T>(xs: seq<T>, f: T -> nat)
    requires forall i | 0 <= i < |xs| :: f(xs[i]) <= 1
    requires forall i, j | 0 <= i < j < |xs| :: f(xs[i]) == 0 || f(xs[j]) == 0
    ensures Sum(xs, f) <= 1
  {
    if xs != [] {
      SumAtMostOne(xs[1..], f);
      if Sum(xs[1..], f) > 0 {
        var k := SumPositive(xs[1..], f);
        assert xs[1..][k] == xs[k + 1];
      }
    }
  }
}
