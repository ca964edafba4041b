/**
  The normaliser factories. Each takes a bound and returns a function that
  crops a circuit to it, passing on to an external divider that splits the
  circuit in two and keeping the first half.

  The dividers and the circuit depth are not part of this model: they are
  parameters with no assumed contract. A divider is curried like the one it
  stands for: given the bound, it yields a function from a circuit to a
  (kept, discarded) pair of circuits.
 */
module Normalizer {
  import opened Circuits

  type Divider = int -> Circuit -> (Circuit, Circuit)

  /** `by_num_cnot(num_cnot)`: there is no early return, so even a circuit
      already within the bound goes through the divider. */
  function ByNumCnot(numCnot: int, divider: Divider): (f: Circuit -> Circuit)
    ensures forall qc :: f(qc) == divider(numCnot)(qc).0
  {
    qc => divider(numCnot)(qc).0
  }

  /** `by_depth(depth)`: a circuit whose depth is within the bound comes back
      unchanged; a deeper one is replaced by the first half the depth
      divider returns, and the second half is dropped. */
  function ByDepth(depth: int, depthOf: Circuit -> nat, divider: Divider): (f: Circuit -> Circuit)
    ensures forall qc :: depthOf(qc) <= depth ==> f(qc) == qc
    ensures forall qc :: depthOf(qc) > depth ==> f(qc) == divider(depth)(qc).0
  {
    qc => if depthOf(qc) <= depth then qc else divider(depth)(qc).0
  }

  /** `by_num_rotation_gate(num_rotation)`: only gates named exactly rx, ry
      or rz are counted; a circuit with at most `numRotation` of them comes
      back unchanged, any other is replaced by the first half the rotation
      divider returns. */
  function ByNumRotationGate(numRotation: int, divider: Divider): (f: Circuit -> Circuit)
    ensures forall qc :: RotationCount(qc) <= numRotation ==> f(qc) == qc
    ensures forall qc :: RotationCount(qc) > numRotation ==> f(qc) == divider(numRotation)(qc).0
  {
    qc => if RotationCount(qc) <= numRotation then qc else divider(numRotation)(qc).0
  }

  /** A divider that keeps the circuit within its bound makes `by_depth`
      meet the bound and makes it idempotent. */
  lemma ByDepthMeetsBound(depth: int, depthOf: Circuit -> nat, divider: Divider, qc: Circuit)
    requires forall c :: depthOf(divider(depth)(c).0) <= depth
    ensures depthOf(ByDepth(depth, depthOf, divider)(qc)) <= depth
    ensures ByDepth(depth, depthOf, divider)(ByDepth(depth, depthOf, divider)(qc)) == ByDepth(depth, depthOf, divider)(qc)
  {
  }

  /** The same for `by_num_rotation_gate` and the rotation divider. */
  lemma ByNumRotationGateMeetsBound(numRotation: int, divider: Divider, qc: Circuit)
    requires forall c :: RotationCount(divider(numRotation)(c).0) <= numRotation
    ensures RotationCount(ByNumRotationGate(numRotation, divider)(qc)) <= numRotation
    ensures ByNumRotationGate(numRotation, divider)(ByNumRotationGate(numRotation, divider)(qc))
            == ByNumRotationGate(numRotation, divider)(qc)
  {
  }
}
