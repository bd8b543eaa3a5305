/**
 * What "settled" guarantees about the pods of the StatefulSet. The reconciler compares two replica counts and
 * then deletes the Secrets of every index from the replica count up.
 */
module Settled {
  /** The ordinals below n, the ones a StatefulSet of n replicas asks for. */
  function Ordinals(n: nat): (r: set<nat>)
    ensures forall k: nat :: k in r <==> k < n
    ensures |r| == n
  {
    if n == 0 then {} else Ordinals(n - 1) + {n - 1}
  }

  lemma SubsetOfSameSize(a: set<nat>, b: set<nat>)
    requires a <= b && |a| == |b|
    ensures a == b
  {
    assert |b - a| == |b| - |a|;
    assert b == a + (b - a);
  }

  /** As many pods as are asked for are all below the replica count only if they are exactly the lowest ordinals. */
  lemma BelowMeansLowest(pods: set<nat>, n: nat)
    requires |pods| == n
    ensures pods <= Ordinals(n) <==> pods == Ordinals(n)
    ensures pods <= Ordinals(n) <==> forall o | o in pods :: o < n
  {
    if pods <= Ordinals(n) {
      SubsetOfSameSize(pods, Ordinals(n));
    }
  }
}
