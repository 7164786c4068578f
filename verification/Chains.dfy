/** Invariants of a relation, over any sequence of related states. */
module Chains {
  ghost predicate IsChain<S>(next: (S, S) -> bool, states: seq<S>) {
    forall i :: 0 <= i < |states| - 1 ==> next(states[i], states[i + 1])
  }

  ghost predicate IsKept<S(!new)>(next: (S, S) -> bool, inv: S -> bool) {
    forall a, b :: inv(a) && next(a, b) ==> inv(b)
  }

  lemma {:induction false} KeptAlong<S(!new)>(next: (S, S) -> bool, inv: S -> bool, states: seq<S>, i: nat, j: nat)
    requires IsChain(next, states) && IsKept(next, inv) && i <= j < |states| && inv(states[i])
    ensures inv(states[j])
    decreases j
  {
    if i < j {
      KeptAlong(next, inv, states, i, j - 1);
      assert next(states[j - 1], states[j - 1 + 1]);
    }
  }
}
