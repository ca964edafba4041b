/**
  Rejection sampling over a finite list of pool draws.

  Both site mutators draw gates from the pool in a `while True` loop and
  stop at the first draw their acceptance rule admits. Here the random
  draws are an explicit list, and the loop takes its first acceptable
  element.
 */
module Sampling {
  import opened Circuits

  /** The two acceptance rules. Both demand that the drawn gate has the
      arity of the gate it replaces (`current`). `KeepRotations` adds the
      rotation-floor rule of the constrained mutator. `numRotations` is the
      rotation count of the whole circuit, taken before the first draw. */
  datatype Rule =
    | SameArity(current: Gate)
    | KeepRotations(current: Gate, numRotations: int, numQubits: int)

  predicate Accepts(rule: Rule, g: Gate) {
    && g.numQubits == rule.current.numQubits
    && match rule
       case SameArity(_) => true
       case KeepRotations(current, numRot, numQubits) =>
         IsRotation(g) || (!IsRotation(current) && numRot >= numQubits)
  }

  /** The list of draws for position `index` holds some acceptable gate. */
  predicate HasAccepted(draws: seq<Descriptor>, index: int, rule: Rule) {
    exists k :: 0 <= k < |draws| && Accepts(rule, Instantiate(draws[k], index))
  }

  /** `k` is where the rejection loop stops: the first acceptable draw. */
  predicate IsFirstAccepted(draws: seq<Descriptor>, index: int, rule: Rule, k: int) {
    && 0 <= k < |draws|
    && Accepts(rule, Instantiate(draws[k], index))
    && forall j :: 0 <= j < k ==> !Accepts(rule, Instantiate(draws[j], index))
  }

  function FirstAcceptedFrom(draws: seq<Descriptor>, index: int, rule: Rule, i: nat): (k: nat)
    requires i <= |draws|
    requires exists k :: i <= k < |draws| && Accepts(rule, Instantiate(draws[k], index))
    requires forall j :: 0 <= j < i ==> !Accepts(rule, Instantiate(draws[j], index))
    ensures IsFirstAccepted(draws, index, rule, k)
    decreases |draws| - i
  {
    if Accepts(rule, Instantiate(draws[i], index)) then i
    else FirstAcceptedFrom(draws, index, rule, i + 1)
  }

  /** Index of the draw the rejection loop accepts. */
  function FirstAccepted(draws: seq<Descriptor>, index: int, rule: Rule): (k: nat)
    requires HasAccepted(draws, index, rule)
    ensures IsFirstAccepted(draws, index, rule, k)
  {
    FirstAcceptedFrom(draws, index, rule, 0)
  }

  /** The loop's stopping point is unique, so it is the draw sequence and
      the rule alone that decide which gate is accepted. */
  lemma FirstAcceptedUnique(draws: seq<Descriptor>, index: int, rule: Rule, k: int, k': int)
    requires IsFirstAccepted(draws, index, rule, k)
    requires IsFirstAccepted(draws, index, rule, k')
    ensures k == k'
  {
  }

  /** Without an acceptable draw the loop never stops. In particular no
      draw list that lacks a gate of the arity being replaced can satisfy
      either rule. */
  lemma NoMatchingArityRejectsAll(draws: seq<Descriptor>, index: int, rule: Rule)
    requires forall k :: 0 <= k < |draws| ==> draws[k].numQubits != rule.current.numQubits
    ensures !HasAccepted(draws, index, rule)
  {
  }
}
