/** Finite sums over sequences of naturals. */
module Sums {
  function Sum(xs: seq<nat>): nat {
    if xs == [] then 0 else xs[0] + Sum(xs[1..])
  }

  lemma {:induction false} SumUpdate(xs: seq<nat>, i: nat, x: nat)
    requires i < |xs|
    ensures Sum(xs[i := x]) + xs[i] == Sum(xs) + x
  {
    if i == 0 {
      assert xs[0 := x][1..] == xs[1..];
    } else {
      assert xs[i := x][1..] == xs[1..][i - 1 := x];
      SumUpdate(xs[1..], i - 1, x);
    }
  }

  lemma {:induction false} SumAtLeast(xs: seq<nat>, i: nat)
    requires i < |xs|
    ensures xs[i] <= Sum(xs)
  {
    if i > 0 { SumAtLeast(xs[1..], i - 1); }
  }

  lemma {:induction false} SumConstant(xs: seq<nat>, c: nat)
    requires forall i :: 0 <= i < |xs| ==> xs[i] == c
    ensures Sum(xs) == |xs| * c
  {
    if xs != [] { SumConstant(xs[1..], c); }
  }
}

/** Row-major cell numbers `n * t + i`, and the range of `unsigned` they are computed in. */
module Cells {
  const UNSIGNED_RANGE: nat := 0x1_0000_0000

  function Cell(n: nat, t: nat, i: nat): nat {
    n * t + i
  }

  lemma {:induction false} CellBound(n: nat, p: nat, t: nat, i: nat)
    requires i < n && t < p
    ensures Cell(n, t, i) < n * p
    decreases p
  {
    assert n * p == n * (p - 1) + n;
    if t < p - 1 { CellBound(n, p - 1, t, i); }
  }

  lemma CellsDistinct(n: nat, t: nat, i: nat, u: nat, j: nat)
    requires i < n && j < n && Cell(n, t, i) == Cell(n, u, j)
    ensures t == u && i == j
  {
    if t < u { CellBound(n, u, t, i); } else if u < t { CellBound(n, t, u, j); }
  }

  lemma {:induction false} CellExists(n: nat, p: nat, v: nat) returns (t: nat, i: nat)
    requires v < n * p
    ensures t < p && i < n && v == Cell(n, t, i)
    decreases p
  {
    assert n * p == n * (p - 1) + n;
    if v < n * (p - 1) {
      t, i := CellExists(n, p - 1, v);
    } else {
      t, i := p - 1, v - n * (p - 1);
    }
  }
}
