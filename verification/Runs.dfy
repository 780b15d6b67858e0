/**
 Facts about what holds along a sequence of states, given as one value per state.
 */
module Runs {
  /** What holds at j and is kept by each step holds at m. */
  lemma {:induction false} Carry(b: seq<bool>, j: nat, m: nat)
    requires j <= m < |b| && b[j] && forall k | j <= k < m :: b[k] ==> b[k + 1]
    ensures b[m]
    decreases m
  {
    if m == j {
    } else {
      Carry(b, j, m - 1);
    }
  }

  /** What holds at m but not at j starts to hold somewhere between. */
  lemma {:induction false} Starts(b: seq<bool>, j: nat, m: nat) returns (k: nat)
    requires j < m < |b| && !b[j] && b[m]
    ensures j <= k < m && !b[k] && b[k + 1]
    decreases m
  {
    if m == j + 1 || !b[m - 1] {
      k := m - 1;
    } else {
      k := Starts(b, j, m - 1);
    }
  }

  /** How many of the steps from j to m are one's own. */
  function Own(own: seq<bool>, j: nat, m: nat): nat
    requires j <= m <= |own|
    decreases m
  {
    if m == j then 0 else Own(own, j, m - 1) + if own[m - 1] then 1 else 0
  }

  /** What goes down with each of one's own steps, and never up, they use up. */
  lemma {:induction false} Spent(left: seq<nat>, own: seq<bool>, j: nat, m: nat)
    requires j <= m <= |own| && |own| < |left|
    requires forall k | j <= k < m :: left[k + 1] + (if own[k] then 1 else 0) <= left[k]
    ensures Own(own, j, m) + left[m] <= left[j]
    decreases m
  {
    if m == j {
    } else {
      Spent(left, own, j, m - 1);
    }
  }
}
