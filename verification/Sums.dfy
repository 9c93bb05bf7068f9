/** Sums of natural-number sequences, used to count running queues and remaining work. */
module Sums {

  function Total(ns: seq<nat>): nat {
    if ns == [] then 0 else Total(ns[..|ns| - 1]) + ns[|ns| - 1]
  }

  lemma {:induction false} TotalUpdate(ns: seq<nat>, i: nat, n: nat)
    requires i < |ns|
    ensures Total(ns[i := n]) + ns[i] == Total(ns) + n
    decreases |ns|
  {
    var front := ns[..|ns| - 1];
    if i == |ns| - 1 {
      assert ns[i := n][..|ns| - 1] == front;
    } else {
      TotalUpdate(front, i, n);
      assert ns[i := n][..|ns| - 1] == front[i := n];
    }
  }

  lemma TotalAppend(ns: seq<nat>, n: nat)
    ensures Total(ns + [n]) == Total(ns) + n
  {
    assert (ns + [n])[..|ns|] == ns;
  }

  lemma {:induction false} TotalZero(ns: seq<nat>)
    ensures Total(ns) == 0 <==> forall i | 0 <= i < |ns| :: ns[i] == 0
    decreases |ns|
  {
    if ns != [] {
      TotalZero(ns[..|ns| - 1]);
      assert forall i | 0 <= i < |ns| - 1 :: ns[i] == ns[..|ns| - 1][i];
    }
  }

  lemma {:induction false} TotalMonotone(ms: seq<nat>, ns: seq<nat>)
    requires |ms| == |ns| && forall i | 0 <= i < |ms| :: ms[i] <= ns[i]
    ensures Total(ms) <= Total(ns)
    decreases |ms|
  {
    if ms != [] {
      TotalMonotone(ms[..|ms| - 1], ns[..|ns| - 1]);
    }
  }

  lemma {:induction false} TotalSum(ls: seq<nat>, ms: seq<nat>, ns: seq<nat>)
    requires |ls| == |ms| == |ns| && forall i | 0 <= i < |ns| :: ls[i] + ms[i] == ns[i]
    ensures Total(ls) + Total(ms) == Total(ns)
    decreases |ns|
  {
    if ns != [] {
      TotalSum(ls[..|ls| - 1], ms[..|ms| - 1], ns[..|ns| - 1]);
    }
  }
}
