/** Sums of natural numbers. */
module Sums {

  function Total(w: seq<nat>): nat { if w == [] then 0 else Total(w[..|w| - 1]) + w[|w| - 1] }

  lemma TotalAppend(w: seq<nat>, x: nat)
    ensures Total(w + [x]) == Total(w) + x
  {
    assert (w + [x])[..|w|] == w;
  }

  /** Nothing grows and entry `k` drops by `drop`. */
  lemma {:induction false} TotalDrops(w: seq<nat>, w': seq<nat>, k: nat, drop: nat)
    requires |w| == |w'| && k < |w| && (forall i :: 0 <= i < |w| ==> w'[i] <= w[i]) && w'[k] + drop <= w[k]
    ensures Total(w') + drop <= Total(w)
  {
    var m := |w| - 1;
    if k < m {
      TotalDrops(w[..m], w'[..m], k, drop);
    } else {
      TotalLe(w[..m], w'[..m]);
    }
  }

  lemma {:induction false} TotalLe(w: seq<nat>, w': seq<nat>)
    requires |w| == |w'| && (forall i :: 0 <= i < |w| ==> w'[i] <= w[i])
    ensures Total(w') <= Total(w)
  {
    if w != [] { TotalLe(w[..|w| - 1], w'[..|w| - 1]); }
  }
}
