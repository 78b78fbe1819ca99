/** Sums of finite lists. */
module Sums {

  function Total(xs: seq<nat>): nat {
    if xs == [] then 0 else xs[0] + Total(xs[1..])
  }

  lemma {:induction false} TotalUpdate(xs: seq<nat>, k: nat, v: nat)
    requires k < |xs|
    ensures Total(xs[k := v]) == Total(xs) - xs[k] + v
  {
    if k == 0 {
      assert xs[k := v][1..] == xs[1..];
    } else {
      assert xs[k := v][1..] == xs[1..][k - 1 := v];
      TotalUpdate(xs[1..], k - 1, v);
    }
  }

  lemma {:induction false} TotalAppend(xs: seq<nat>, v: nat)
    ensures Total(xs + [v]) == Total(xs) + v
  {
    if xs == [] {
      assert (xs + [v])[1..] == [];
    } else {
      assert (xs + [v])[1..] == xs[1..] + [v];
      TotalAppend(xs[1..], v);
    }
  }

  /** If no entry grows by more than c, the sum grows by at most c per entry. */
  lemma {:induction false} TotalBound(xs: seq<nat>, ys: seq<nat>, c: nat)
    requires |xs| == |ys| && forall k :: 0 <= k < |xs| ==> ys[k] <= xs[k] + c
    ensures Total(ys) <= Total(xs) + c * |xs|
  {
    if xs != [] {
      TotalBound(xs[1..], ys[1..], c);
      assert c * |xs| == c * |xs[1..]| + c;
    }
  }
}
