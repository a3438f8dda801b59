/** Sums of ranks, for measures in which one party's rank falls and the others' stay. */
module Ranks {
  function Total(ranks: seq<nat>): nat {
    if ranks == [] then 0 else Total(ranks[..|ranks| - 1]) + ranks[|ranks| - 1]
  }

  lemma {:induction false} TotalFalls(a: seq<nat>, b: seq<nat>, t: nat)
    requires |a| == |b| && t < |a| && b[t] < a[t]
    requires forall u :: 0 <= u < |a| && u != t ==> b[u] == a[u]
    ensures Total(b) < Total(a)
  {
    if t == |a| - 1 {
      assert a[..t] == b[..t];
    } else {
      TotalFalls(a[..|a| - 1], b[..|a| - 1], t);
    }
  }
}
