/**
  The abstract quantum circuit the mutation operators work on.

  A circuit is the ordered list of its instructions (`qc.data` in qiskit).
  Each instruction places a gate on a list of target qubits and a list of
  classical bits. A gate is reduced to what the mutators look at: its name
  (used to recognise the rotation gates rx, ry and rz), its qubit arity and
  the symbolic parameters it was built with.
 */
module Circuits {

  /** The symbolic parameters a gate was instantiated with. A parameter or a
      parameter vector is named after the circuit position it was created
      for, so gates placed at different positions never share a name. */
  datatype ParamTag =
    | NoParams
    | Param(name: int)
    | ParamVector(name: int, length: nat)

  /** Number of symbolic parameters carried by a tag. */
  function ParamCount(t: ParamTag): nat {
    match t
    case NoParams => 0
    case Param(_) => 1
    case ParamVector(_, n) => n
  }

  datatype Gate = Gate(name: string, numQubits: nat, params: ParamTag)

  /** An entry of the gate pool: a gate constructor, reduced to the name and
      qubit arity of the gate it builds, and how many parameters it takes. */
  datatype Descriptor = Descriptor(name: string, numQubits: nat, numParams: nat)

  /** One instruction of a circuit: a gate, its target qubits and its
      classical bits. */
  datatype Placement = Placement(gate: Gate, qubits: seq<nat>, clbits: seq<nat>)

  type Circuit = seq<Placement>

  /** Builds the gate a pool entry describes for position `index`: no
      parameter, one parameter named after `index`, or a parameter vector
      named after `index` when the entry takes more than one. */
  function Instantiate(d: Descriptor, index: int): (g: Gate)
    ensures g.name == d.name && g.numQubits == d.numQubits
    ensures ParamCount(g.params) == d.numParams
    ensures !g.params.NoParams? ==> g.params.name == index
  {
    if d.numParams == 0 then Gate(d.name, d.numQubits, NoParams)
    else if d.numParams == 1 then Gate(d.name, d.numQubits, Param(index))
    else Gate(d.name, d.numQubits, ParamVector(index, d.numParams))
  }

  /** A rotation gate is one named exactly rx, ry or rz. */
  predicate IsRotation(g: Gate) {
    g.name == "rx" || g.name == "ry" || g.name == "rz"
  }

  /** A circuit is well formed when every gate acts on exactly as many
      qubits as its arity. */
  predicate WellFormed(qc: Circuit) {
    forall j :: 0 <= j < |qc| ==> |qc[j].qubits| == qc[j].gate.numQubits
  }

  function RotationBit(p: Placement): nat {
    if IsRotation(p.gate) then 1 else 0
  }

  /** Number of instructions whose gate is a rotation gate. */
  function RotationCount(qc: Circuit): (r: nat)
    ensures r <= |qc|
  {
    if |qc| == 0 then 0 else RotationBit(qc[0]) + RotationCount(qc[1..])
  }

  /** The count is zero exactly when no gate is a rotation gate, and equals
      the gate count exactly when every gate is one. */
  lemma {:induction false} RotationCountExtremes(qc: Circuit)
    ensures RotationCount(qc) == 0 <==> forall j :: 0 <= j < |qc| ==> !IsRotation(qc[j].gate)
    ensures RotationCount(qc) == |qc| <==> forall j :: 0 <= j < |qc| ==> IsRotation(qc[j].gate)
  {
    if |qc| > 0 {
      RotationCountExtremes(qc[1..]);
      assert forall j :: 1 <= j < |qc| ==> qc[j] == qc[1..][j - 1];
    }
  }

  /** Replacing one instruction changes the rotation count only by the
      difference between the old and the new instruction. */
  lemma {:induction false} RotationCountUpdate(qc: Circuit, i: nat, p: Placement)
    requires i < |qc|
    ensures RotationCount(qc[i := p]) + RotationBit(qc[i]) == RotationCount(qc) + RotationBit(p)
  {
    if i == 0 {
      assert qc[i := p][1..] == qc[1..];
    } else {
      assert qc[i := p][1..] == qc[1..][i - 1 := p];
      RotationCountUpdate(qc[1..], i - 1, p);
    }
  }

  /** If every rotation gate of `a` is still a rotation gate at the same
      position of `b`, then `b` has at least as many rotation gates. */
  lemma {:induction false} RotationCountMonotone(a: Circuit, b: Circuit)
    requires |a| == |b|
    requires forall j :: 0 <= j < |a| && IsRotation(a[j].gate) ==> IsRotation(b[j].gate)
    ensures RotationCount(a) <= RotationCount(b)
  {
    if |a| > 0 {
      assert forall j :: 0 <= j < |a| - 1 ==> a[1..][j] == a[j + 1] && b[1..][j] == b[j + 1];
      RotationCountMonotone(a[1..], b[1..]);
    }
  }
}
