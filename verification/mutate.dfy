/**
  The structural mutation operators of the evolutionary search: single-site
  gate substitution (`specific_mutate` and its rotation-preserving variant
  `specific_mutate_testing`) and whole-circuit "bitflip" mutation built on
  them.

  Randomness is explicit. Each circuit position `j` has one coin,
  `coins[j]`, standing for `random.random() < prob_mutate`. It also has one
  list of pool draws, `draws[j]`, standing for the successive results of
  `random.choice(pool)` the site mutator would see at that position.
 */
module Mutate {
  import opened Circuits
  import opened Sampling

  function Min(a: nat, b: nat): nat {
    if a <= b then a else b
  }

  /** `g` is the gate the rejection loop settles on: the instantiation, for
      position `index`, of the first draw that `rule` accepts. */
  predicate Chosen(g: Gate, draws: seq<Descriptor>, index: int, rule: Rule) {
    exists k :: 0 <= k < |draws| && IsFirstAccepted(draws, index, rule, k) && g == Instantiate(draws[k], index)
  }

  // ---------------------------------------------------------------------
  // specific_mutate
  // ---------------------------------------------------------------------

  /** What `specific_mutate` needs in order to return: a position inside the
      circuit, a draw of the same arity somewhere in the draw list, and a
      first target qubit whenever the rebinding reads one. */
  predicate MutateReady(qc: Circuit, draws: seq<Descriptor>, index: int) {
    && 0 <= index < |qc|
    && HasAccepted(draws, index, SameArity(qc[index].gate))
    && (1 <= qc[index].gate.numQubits <= 2 ==> |qc[index].qubits| > 0)
  }

  /** Replaces the gate at `index` by the first draw of the same arity.
      Arity 1 rebinds the targets to the first original qubit. Arity 2
      rebinds them to the first two, or to the first alone when there is
      only one. Any other arity leaves the circuit as it was, because the
      accepted gate is never written back. */
  function SpecificMutate(qc: Circuit, draws: seq<Descriptor>, index: int): (r: Circuit)
    requires MutateReady(qc, draws, index)
    ensures |r| == |qc|
    ensures forall j :: 0 <= j < |qc| && j != index ==> r[j] == qc[j]
    ensures r[index].gate.numQubits == qc[index].gate.numQubits
    ensures !(1 <= qc[index].gate.numQubits <= 2) ==> r == qc
    ensures 1 <= qc[index].gate.numQubits <= 2 ==>
      && Chosen(r[index].gate, draws, index, SameArity(qc[index].gate))
      && r[index].qubits == qc[index].qubits[..Min(r[index].gate.numQubits, |qc[index].qubits|)]
      && r[index].clbits == []
  {
    var k := FirstAccepted(draws, index, SameArity(qc[index].gate));
    var gate := Instantiate(draws[k], index);
    var targets := qc[index].qubits;
    if gate.numQubits == 1 then
      qc[index := Placement(gate, [targets[0]], [])]
    else if gate.numQubits == 2 then
      qc[index := Placement(gate, if |targets| > 1 then [targets[0], targets[1]] else [targets[0]], [])]
    else
      qc
  }

  /** The new instruction at `index` is a function of the old instruction
      there alone: the rest of the circuit does not influence it. */
  lemma SpecificMutateLocal(a: Circuit, b: Circuit, draws: seq<Descriptor>, index: int)
    requires MutateReady(a, draws, index) && MutateReady(b, draws, index)
    requires a[index] == b[index]
    ensures SpecificMutate(a, draws, index)[index] == SpecificMutate(b, draws, index)[index]
  {
  }

  /** On a well-formed circuit the replacement acts on exactly as many
      qubits as its arity; in particular the one-qubit fallback of the
      arity-2 branch is never taken. */
  lemma SpecificMutateKeepsWellFormed(qc: Circuit, draws: seq<Descriptor>, index: int)
    requires MutateReady(qc, draws, index) && WellFormed(qc)
    ensures WellFormed(SpecificMutate(qc, draws, index))
    ensures qc[index].gate.numQubits == 2 ==> |SpecificMutate(qc, draws, index)[index].qubits| == 2
  {
  }

  // ---------------------------------------------------------------------
  // bitflip_mutate
  // ---------------------------------------------------------------------

  /** One coin and one draw list per position, counted once before the
      loop starts, and every position whose coin hits can be mutated. */
  predicate BitflipReady(qc: Circuit, coins: seq<bool>, draws: seq<seq<Descriptor>>) {
    && |coins| == |qc|
    && |draws| == |qc|
    && forall j :: 0 <= j < |qc| && coins[j] ==> MutateReady(qc, draws[j], j)
  }

  /** The instruction bitflip leaves at position `j`: the site mutation of
      the ORIGINAL circuit at `j` when its coin hits, the original otherwise. */
  function Visited(qc: Circuit, coins: seq<bool>, draws: seq<seq<Descriptor>>, j: nat): Placement
    requires BitflipReady(qc, coins, draws) && j < |qc|
  {
    if coins[j] then SpecificMutate(qc, draws[j], j)[j] else qc[j]
  }

  /** The circuit after the loop has visited positions 0 .. k-1 in order. */
  function BitflipSteps(qc: Circuit, coins: seq<bool>, draws: seq<seq<Descriptor>>, k: nat): (r: Circuit)
    requires BitflipReady(qc, coins, draws) && k <= |qc|
    ensures |r| == |qc|
    ensures forall j :: k <= j < |qc| ==> r[j] == qc[j]
    ensures forall j :: 0 <= j < k ==> r[j] == Visited(qc, coins, draws, j)
    decreases k
  {
    if k == 0 then qc
    else
      var prev := BitflipSteps(qc, coins, draws, k - 1);
      if coins[k - 1] then
        SpecificMutateLocal(prev, qc, draws[k - 1], k - 1);
        SpecificMutate(prev, draws[k - 1], k - 1)
      else
        prev
  }

  /** `bitflip_mutate(pool, prob_mutate)` applied to `qc`. Sequentially
      mutating the hit positions gives the same circuit as mutating each hit
      position of the original independently: every position is visited
      once, exactly the hit positions change, and no hit means no change. */
  function BitflipMutate(qc: Circuit, coins: seq<bool>, draws: seq<seq<Descriptor>>): (r: Circuit)
    requires BitflipReady(qc, coins, draws)
    ensures |r| == |qc|
    ensures forall j :: 0 <= j < |qc| && !coins[j] ==> r[j] == qc[j]
    ensures forall j :: 0 <= j < |qc| && coins[j] ==> r[j] == SpecificMutate(qc, draws[j], j)[j]
    ensures forall j :: 0 <= j < |qc| ==> r[j].gate.numQubits == qc[j].gate.numQubits
    ensures (forall j :: 0 <= j < |qc| ==> !coins[j]) ==> r == qc
  {
    BitflipSteps(qc, coins, draws, |qc|)
  }

  lemma BitflipKeepsWellFormed(qc: Circuit, coins: seq<bool>, draws: seq<seq<Descriptor>>)
    requires BitflipReady(qc, coins, draws) && WellFormed(qc)
    ensures WellFormed(BitflipMutate(qc, coins, draws))
  {
  }

  /** `bitflip_mutate_with_normalizer(pool, normalizer_func, prob_mutate)`
      applied to `qc`: the normaliser runs once, on the bitflip result. */
  function BitflipMutateWithNormalizer(qc: Circuit, coins: seq<bool>, draws: seq<seq<Descriptor>>,
                                       normalize: Circuit -> Circuit): (r: Circuit)
    requires BitflipReady(qc, coins, draws)
    ensures r == normalize(BitflipMutate(qc, coins, draws))
    ensures (forall j :: 0 <= j < |qc| ==> !coins[j]) ==> r == normalize(qc)
  {
    var m := BitflipMutate(qc, coins, draws);
    normalize(m)
  }

  // ---------------------------------------------------------------------
  // specific_mutate_testing
  // ---------------------------------------------------------------------

  /** The acceptance rule of the constrained mutator for position `index`,
      with the rotation count taken before the first draw. */
  function FloorRule(qc: Circuit, index: int, numQubits: int): Rule
    requires 0 <= index < |qc|
  {
    KeepRotations(qc[index].gate, RotationCount(qc), numQubits)
  }

  predicate TestingReady(qc: Circuit, draws: seq<Descriptor>, index: int, numQubits: int) {
    && 0 <= index < |qc|
    && HasAccepted(draws, index, FloorRule(qc, index, numQubits))
  }

  /** Replaces the gate at `index` by the first draw of the same arity that
      keeps the rotation floor, reusing the original target qubits as they
      are. A rotation gate is only ever replaced by a rotation gate, and a
      non-rotation gate becomes a non-rotation gate only when the circuit
      already holds at least `numQubits` rotation gates. So the rotation
      count never drops, and it rises when it was below `numQubits` and a
      non-rotation gate is replaced. */
  function SpecificMutateTesting(qc: Circuit, draws: seq<Descriptor>, index: int, numQubits: int): (r: Circuit)
    requires TestingReady(qc, draws, index, numQubits)
    ensures |r| == |qc|
    ensures forall j :: 0 <= j < |qc| && j != index ==> r[j] == qc[j]
    ensures r[index].gate.numQubits == qc[index].gate.numQubits
    ensures r[index].qubits == qc[index].qubits && r[index].clbits == []
    ensures Chosen(r[index].gate, draws, index, FloorRule(qc, index, numQubits))
    ensures IsRotation(qc[index].gate) ==> IsRotation(r[index].gate)
    ensures !IsRotation(r[index].gate) ==> RotationCount(qc) >= numQubits
    ensures RotationCount(r) >= RotationCount(qc)
    ensures !IsRotation(qc[index].gate) && RotationCount(qc) < numQubits ==>
      RotationCount(r) == RotationCount(qc) + 1
  {
    var numRot := RotationCount(qc);
    var k := FirstAccepted(draws, index, KeepRotations(qc[index].gate, numRot, numQubits));
    var gate := Instantiate(draws[k], index);
    var p := Placement(gate, qc[index].qubits, []);
    RotationCountUpdate(qc, index, p);
    qc[index := p]
  }

  /** Rotation gates are single-qubit: a pool entry named rx, ry or rz
      builds a one-qubit gate. */
  predicate RotationsAreSingleQubit(draws: seq<Descriptor>) {
    forall k :: 0 <= k < |draws| && IsRotation(Gate(draws[k].name, draws[k].numQubits, NoParams)) ==>
      draws[k].numQubits == 1
  }

  /** While the rotation count is below `numQubits`, no draw can replace a
      non-rotation gate of arity other than one: the constrained mutator's
      loop would spin forever on such a position. */
  lemma TestingSpinsBelowFloor(qc: Circuit, draws: seq<Descriptor>, index: int, numQubits: int)
    requires 0 <= index < |qc|
    requires RotationsAreSingleQubit(draws)
    requires !IsRotation(qc[index].gate) && qc[index].gate.numQubits != 1
    requires RotationCount(qc) < numQubits
    ensures !HasAccepted(draws, index, FloorRule(qc, index, numQubits))
  {
  }

  // ---------------------------------------------------------------------
  // bitflip_mutate_with_normalizer_testing
  // ---------------------------------------------------------------------

  /** Result of the constrained bitflip loop. `Stuck(j)` means the draws
      supplied for the hit position `j` hold no gate the rotation-floor
      rule accepts at the moment `j` is visited, so these draws do not
      settle the source's unbounded loop there. */
  datatype Outcome = Done(circuit: Circuit) | Stuck(position: nat)

  /** `m` keeps the shape of `qc`: same length, same arity and targets at
      every position, untouched where the coin missed, and no rotation
      gate turned into a non-rotation gate. */
  predicate KeepsRotations(qc: Circuit, m: Circuit, coins: seq<bool>)
    requires |coins| == |qc|
  {
    && |m| == |qc|
    && forall j :: 0 <= j < |qc| ==>
         && m[j].gate.numQubits == qc[j].gate.numQubits
         && m[j].qubits == qc[j].qubits
         && (!coins[j] ==> m[j] == qc[j])
         && (IsRotation(qc[j].gate) ==> IsRotation(m[j].gate))
  }

  /** Keeping the shape alone already keeps the rotation count from
      dropping, so once it has reached `numQubits` it stays there. */
  lemma KeepsRotationsCount(qc: Circuit, m: Circuit, coins: seq<bool>, numQubits: int)
    requires |coins| == |qc| && KeepsRotations(qc, m, coins)
    ensures RotationCount(m) >= RotationCount(qc)
    ensures RotationCount(qc) >= numQubits ==> RotationCount(m) >= numQubits
  {
    RotationCountMonotone(qc, m);
  }

  /** The constrained loop after visiting positions 0 .. k-1 in order; each
      visit sees the circuit left by the visits before it. */
  function TestingSteps(qc: Circuit, coins: seq<bool>, draws: seq<seq<Descriptor>>, numQubits: int, k: nat): (r: Outcome)
    requires |coins| == |qc| && |draws| == |qc| && k <= |qc|
    ensures r.Done? ==> KeepsRotations(qc, r.circuit, coins)
    ensures r.Done? ==> forall j :: k <= j < |qc| ==> r.circuit[j] == qc[j]
    ensures r.Done? ==> RotationCount(r.circuit) >= RotationCount(qc)
    ensures r.Stuck? ==> r.position < k && coins[r.position]
    decreases k
  {
    if k == 0 then Done(qc)
    else
      match TestingSteps(qc, coins, draws, numQubits, k - 1)
      case Stuck(p) => Stuck(p)
      case Done(prev) =>
        var r := TestingVisit(prev, coins[k - 1], draws[k - 1], k - 1, numQubits);
        if r.Stuck? then r
        else
          KeepsRotationsStep(qc, coins, prev, r.circuit, k - 1);
          r
  }

  /** What the constrained loop wrote and where it stalled. Every hit
      position before `k` holds the gate the floor rule picked from its
      draws, judged against the circuit the loop had reached when it got
      there, and its classical bits are dropped. A stall at `p` means the
      loop reached `p` and the draws for `p` held nothing that rule accepted
      at that moment. */
  lemma {:induction false} TestingStepsHits(qc: Circuit, coins: seq<bool>, draws: seq<seq<Descriptor>>,
                                            numQubits: int, k: nat)
    requires |coins| == |qc| && |draws| == |qc| && k <= |qc|
    ensures var r := TestingSteps(qc, coins, draws, numQubits, k);
      r.Done? ==> forall j :: 0 <= j < k && coins[j] ==>
        && TestingSteps(qc, coins, draws, numQubits, j).Done?
        && Chosen(r.circuit[j].gate, draws[j], j, FloorRule(TestingSteps(qc, coins, draws, numQubits, j).circuit, j, numQubits))
        && r.circuit[j].clbits == []
    ensures var r := TestingSteps(qc, coins, draws, numQubits, k);
      r.Stuck? ==>
        && TestingSteps(qc, coins, draws, numQubits, r.position).Done?
        && !HasAccepted(draws[r.position], r.position,
                        FloorRule(TestingSteps(qc, coins, draws, numQubits, r.position).circuit, r.position, numQubits))
  {
    if k > 0 {
      var i := k - 1;
      TestingStepsHits(qc, coins, draws, numQubits, i);
      var s := TestingSteps(qc, coins, draws, numQubits, i);
      if s.Done? {
        var v := TestingVisit(s.circuit, coins[i], draws[i], i, numQubits);
        assert TestingSteps(qc, coins, draws, numQubits, k) == v;
        if v.Done? {
          forall j | 0 <= j < k && coins[j]
            ensures Chosen(v.circuit[j].gate, draws[j], j,
                           FloorRule(TestingSteps(qc, coins, draws, numQubits, j).circuit, j, numQubits))
            ensures v.circuit[j].clbits == []
          {
            if j < i {
              assert v.circuit[j] == s.circuit[j];
            }
          }
        }
      }
    }
  }

  /** `next` differs from `prev` at most at position `i`, and only when the
      coin hit: the gate there keeps its arity and targets, and a rotation
      gate stays a rotation gate. */
  predicate ShapeStep(prev: Circuit, next: Circuit, i: nat, coin: bool) {
    && i < |prev| && |next| == |prev|
    && (forall j :: 0 <= j < |prev| && j != i ==> next[j] == prev[j])
    && next[i].gate.numQubits == prev[i].gate.numQubits
    && next[i].qubits == prev[i].qubits
    && (IsRotation(prev[i].gate) ==> IsRotation(next[i].gate))
    && (!coin ==> next[i] == prev[i])
  }

  /** One visit of the constrained loop at position `i` of the current
      circuit `prev`. A missed coin leaves the circuit alone. A hit runs the
      constrained site mutator, or stalls exactly when the draws hold nothing
      the rule accepts. */
  function TestingVisit(prev: Circuit, coin: bool, draws: seq<Descriptor>, i: nat, numQubits: int): (r: Outcome)
    requires i < |prev|
    ensures !coin ==> r == Done(prev)
    ensures r.Stuck? ==> r.position == i
    ensures coin ==> (r.Stuck? <==> !HasAccepted(draws, i, FloorRule(prev, i, numQubits)))
    ensures r.Done? ==> ShapeStep(prev, r.circuit, i, coin)
    ensures coin && r.Done? ==>
      Chosen(r.circuit[i].gate, draws, i, FloorRule(prev, i, numQubits)) && r.circuit[i].clbits == []
    ensures r.Done? ==> RotationCount(r.circuit) >= RotationCount(prev)
  {
    if !coin then Done(prev)
    else if HasAccepted(draws, i, FloorRule(prev, i, numQubits)) then
      Done(SpecificMutateTesting(prev, draws, i, numQubits))
    else
      Stuck(i)
  }

  /** Rewriting position `i` with a gate of the same arity on the same
      targets, without losing a rotation gate, and only where the coin hit,
      keeps the shape of `qc`. */
  lemma KeepsRotationsStep(qc: Circuit, coins: seq<bool>, prev: Circuit, next: Circuit, i: nat)
    requires |coins| == |qc| && KeepsRotations(qc, prev, coins)
    requires i < |qc| && ShapeStep(prev, next, i, coins[i])
    ensures KeepsRotations(qc, next, coins)
  {
  }

  /** `bitflip_mutate_with_normalizer_testing(pool, normalizer_func,
      prob_mutate, num_qubits)` applied to `qc`. The normaliser runs once,
      on what the constrained loop leaves; before that call the loop never
      lowers the rotation count, keeps every rotation gate a rotation gate
      and every target list as it was. A stall names a hit position whose
      draws held nothing the floor rule accepted when it was visited. */
  function BitflipMutateWithNormalizerTesting(qc: Circuit, coins: seq<bool>, draws: seq<seq<Descriptor>>,
                                              numQubits: int, normalize: Circuit -> Circuit): (r: Outcome)
    requires |coins| == |qc| && |draws| == |qc|
    ensures r.Done? <==> TestingSteps(qc, coins, draws, numQubits, |qc|).Done?
    ensures r.Done? ==> r.circuit == normalize(TestingSteps(qc, coins, draws, numQubits, |qc|).circuit)
    ensures r.Done? ==> exists m :: r.circuit == normalize(m) && KeepsRotations(qc, m, coins)
                                    && RotationCount(m) >= RotationCount(qc)
    ensures r.Stuck? ==> r.position < |qc| && coins[r.position]
    ensures r.Stuck? ==>
      && TestingSteps(qc, coins, draws, numQubits, r.position).Done?
      && !HasAccepted(draws[r.position], r.position,
                      FloorRule(TestingSteps(qc, coins, draws, numQubits, r.position).circuit, r.position, numQubits))
    ensures (forall j :: 0 <= j < |qc| ==> !coins[j]) ==> r == Done(normalize(qc))
  {
    match TestingSteps(qc, coins, draws, numQubits, |qc|)
    case Stuck(p) =>
      TestingStepsHits(qc, coins, draws, numQubits, |qc|);
      Stuck(p)
    case Done(m) =>
      NoHitsKeepsCircuit(qc, m, coins);
      Done(normalize(m))
  }

  /** A circuit of the same shape that may only differ where a coin hit is
      the input itself when no coin hit. */
  lemma NoHitsKeepsCircuit(qc: Circuit, m: Circuit, coins: seq<bool>)
    requires |coins| == |qc| && KeepsRotations(qc, m, coins)
    ensures (forall j :: 0 <= j < |qc| ==> !coins[j]) ==> m == qc
  {
  }

  /** The draw list holds a rotation gate of the given arity. */
  predicate OffersRotation(draws: seq<Descriptor>, index: int, arity: nat) {
    exists c :: 0 <= c < |draws| && IsRotation(Instantiate(draws[c], index)) && draws[c].numQubits == arity
  }

  /** When every hit position offers a rotation gate of the right arity, the
      constrained loop always finishes, whatever the rotation count. */
  lemma {:induction false} TestingStepsFinish(qc: Circuit, coins: seq<bool>, draws: seq<seq<Descriptor>>,
                                              numQubits: int, k: nat)
    requires |coins| == |qc| && |draws| == |qc| && k <= |qc|
    requires forall j :: 0 <= j < |qc| && coins[j] ==> OffersRotation(draws[j], j, qc[j].gate.numQubits)
    ensures TestingSteps(qc, coins, draws, numQubits, k).Done?
  {
    if k > 0 {
      TestingStepsFinish(qc, coins, draws, numQubits, k - 1);
      var prev := TestingSteps(qc, coins, draws, numQubits, k - 1).circuit;
      var i := k - 1;
      if coins[i] {
        assert prev[i] == qc[i];
        assert OffersRotation(draws[i], i, qc[i].gate.numQubits);
        var c :| 0 <= c < |draws[i]| && IsRotation(Instantiate(draws[i][c], i))
                 && draws[i][c].numQubits == qc[i].gate.numQubits;
        assert Accepts(FloorRule(prev, i, numQubits), Instantiate(draws[i][c], i));
        assert HasAccepted(draws[i], i, FloorRule(prev, i, numQubits));
      }
    }
  }
}
