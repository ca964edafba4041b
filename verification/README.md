# Mutation operators of the qoop evolutionary search, in Dafny

This project models the structural-mutation core of qoop's evolutionary
search over quantum circuits, and proves properties about it. The core lives in
`qoop/evolution/mutate.py` and `qoop/evolution/normalizer.py`.

- `specific_mutate` replaces the gate at one position. It draws gates from the
  pool until one has the arity of the current gate, then rebinds the target
  qubits for that arity.
- `specific_mutate_testing` uses the same loop. It adds a rotation-floor rule
  that never lets the number of `rx`/`ry`/`rz` gates drop, and it keeps the
  target qubits as they are.
- `bitflip_mutate`, `bitflip_mutate_with_normalizer` and
  `bitflip_mutate_with_normalizer_testing` flip one coin per position. They
  mutate each position whose coin hits. The last two then pass the result
  through a normaliser.
- `by_num_cnot`, `by_depth` and `by_num_rotation_gate` build normalisers. Each
  one keeps the first half of an external divider's split. `by_depth` and
  `by_num_rotation_gate` skip the divider when the circuit is already within
  its bound.

The model is functional:

- A circuit is a `seq<Placement>`. Each placement holds a gate (name, qubit
  arity, parameter tag), its target qubits and its classical bits.
- A pool entry is a `Descriptor` (name, arity, parameter count).
- Randomness is passed in explicitly:
  - `coins[j]` stands for `random.random() < prob_mutate` at position `j`.
  - `draws[j]` stands for the successive `random.choice(pool)` results the site
    mutator sees at position `j`.
- The unbounded `while True` loops become a search for the first acceptable
  element of a finite draw list (module `Sampling`).

Files:

- `circuit.dfy` (module `Circuits`): the data model, gate instantiation, rotation gates and the rotation count.
- `sampling.dfy` (module `Sampling`): the two acceptance rules and the rejection loop.
- `mutate.dfy` (module `Mutate`): the site mutators and the bitflip operators.
- `normalizer.dfy` (module `Normalizer`): the three normaliser factories.

Two behaviours of the code are easy to miss, and the model keeps both:

- For a position whose arity is neither 1 nor 2, `specific_mutate` draws an
  acceptable gate but never writes it back, so the circuit comes back
  unchanged (`mutate.py:27-31` has no `else` branch).
- The rotation-floor rule of `specific_mutate_testing` does more than keep the
  count at or above `num_qubits`. It never lowers the count at all: a rotation
  gate can only be replaced by a rotation gate (`mutate.py:125`).

## Model

| member | source | states |
|---|---|---|
| `Circuits.Instantiate` | qoop/evolution/mutate.py:18-23 | the built gate has the entry's name and arity; its parameter count equals the entry's `num_params`; any parameter or parameter vector is named after the position, so gates at different positions never share a parameter name |
| `Circuits.RotationCount` | qoop/evolution/mutate.py:106 | counts the gates named exactly rx, ry or rz; the count never exceeds the gate count |
| `Circuits.RotationCountExtremes` | qoop/evolution/normalizer.py:54 | the count is zero exactly when no gate is named rx, ry or rz, and equals the gate count exactly when every gate is |
| `Circuits.RotationCountUpdate` | qoop/evolution/mutate.py:128-130 | overwriting one instruction changes the rotation count only by the rotation status of the old and the new instruction |
| `Circuits.RotationCountMonotone` | qoop/evolution/mutate.py:121-126 | if every rotation gate is still a rotation gate at the same position afterwards, the rotation count did not drop |
| `Sampling.FirstAcceptedFrom` | qoop/evolution/mutate.py:16-25 | the rejection loop itself: searching from draw `i` on, when no earlier draw was acceptable and a later one is, it stops at the first draw the rule accepts. `Sampling.Accepts` is the loop's break test: the arity check of line 24 for `SameArity`, and the arity and floor checks of lines 121-126 for `KeepRotations` |
| `Sampling.FirstAccepted` | qoop/evolution/mutate.py:16-25 | the rejection loop stops at a draw `Sampling.Accepts` admits, and every earlier draw was rejected |
| `Sampling.FirstAcceptedUnique` | qoop/evolution/mutate.py:16-25 | the draw sequence and the rule alone determine where the loop stops |
| `Sampling.NoMatchingArityRejectsAll` | qoop/evolution/mutate.py:16-25 | if no draw has the arity of the gate being replaced, no draw is accepted under either rule, so the source loop spins forever |
| `Mutate.SpecificMutate` | qoop/evolution/mutate.py:6-31 | the gate count is kept and only position `index` can change; the arity at `index` is kept; for arity 1 or 2 the new gate comes from the first acceptable draw, the targets become the first min(arity, available) original qubits and the classical bits become empty; for any other arity the circuit is returned unchanged |
| `Mutate.SpecificMutateLocal` | qoop/evolution/mutate.py:24-30 | the new instruction at `index` depends only on the old instruction there, never on the rest of the circuit |
| `Mutate.SpecificMutateKeepsWellFormed` | qoop/evolution/mutate.py:26-30 | on a circuit where every gate has as many targets as its arity, the result is such a circuit too, and the one-qubit fallback of the arity-2 branch is never reached |
| `Mutate.BitflipSteps` | qoop/evolution/mutate.py:63-66 | after the loop visits positions 0..k-1 in order, positions from k on are untouched, and each visited position holds what one site mutation of the original circuit would leave there (or the original if its coin missed) |
| `Mutate.BitflipMutate` | qoop/evolution/mutate.py:52-68 | the gate count and the arity at every position are kept; exactly the positions whose coin hits are mutated, each as if mutated alone in the original circuit; with no hits the input comes back unchanged |
| `Mutate.BitflipKeepsWellFormed` | qoop/evolution/mutate.py:62-67 | bitflip keeps every gate acting on as many qubits as its arity |
| `Mutate.BitflipMutateWithNormalizer` | qoop/evolution/mutate.py:33-49 | the normaliser is applied once, last, to the bitflip result; with no hits the result is the normaliser applied to the input |
| `Mutate.SpecificMutateTesting` | qoop/evolution/mutate.py:93-131 | gate count, arity and target qubits are kept; only `index` changes and its classical bits become empty; the new gate is the first draw the floor rule (`Sampling.Accepts` on `KeepRotations`, lines 121-126) accepts; a rotation gate stays a rotation gate; a non-rotation gate is kept only when at least `num_qubits` rotation gates already exist; the rotation count never drops, and it rises by one when it was below `num_qubits` and a non-rotation gate was replaced |
| `Mutate.TestingSpinsBelowFloor` | qoop/evolution/mutate.py:111-126 | when rotation gates are single-qubit and the count is below `num_qubits`, no draw can replace a non-rotation gate of arity other than 1, so the loop spins forever |
| `Mutate.KeepsRotationsCount` | qoop/evolution/mutate.py:121-126 | keeping every rotation gate a rotation gate keeps the rotation count from dropping, so once the floor `num_qubits` is reached it holds |
| `Mutate.TestingSteps` | qoop/evolution/mutate.py:146-149 | after visiting positions 0..k-1 in order, positions from k on are untouched; length, arity and targets are kept everywhere; only positions whose coin hit can differ, and no rotation gate was lost; the rotation count did not drop; a stall can only happen at a hit position |
| `Mutate.TestingStepsHits` | qoop/evolution/mutate.py:145-149 | every hit position before `k` holds the gate the floor rule picked from its own draws, judged against the circuit the loop had reached at that position, and its classical bits are empty; a stall at `p` means the loop reached `p` and the draws for `p` held no gate the rule accepted for the circuit at that moment |
| `Mutate.TestingVisit` | qoop/evolution/mutate.py:148-149 | one loop iteration: a missed coin leaves the circuit as it is; on a hit it stalls exactly when the draws hold no gate the floor rule accepts for the current circuit, and otherwise writes the first accepted draw at that position with empty classical bits; a hit changes at most that position, keeping its arity and targets and any rotation gate, and does not lower the rotation count |
| `Mutate.NoHitsKeepsCircuit` | qoop/evolution/mutate.py:146-149 | a circuit of the input's shape that differs only where a coin hit is the input itself when no coin hits, so the constrained loop then leaves the circuit as it was |
| `Mutate.BitflipMutateWithNormalizerTesting` | qoop/evolution/mutate.py:133-152 | the operator finishes exactly when the constrained loop does, and then returns the normaliser applied once to the loop's circuit, which keeps the input's shape and does not lower its rotation count; a stall names a hit position that the loop reached and whose draws held no gate the floor rule accepted for the circuit at that moment; with no hits the result is the normaliser applied to the input |
| `Mutate.TestingStepsFinish` | qoop/evolution/mutate.py:111-126 | if every hit position's draws offer a rotation gate of the right arity, the constrained loop always finishes |
| `Normalizer.ByNumCnot` | qoop/evolution/normalizer.py:7-20 | on every circuit the normaliser returns the first half of the CNOT divider's split, with no early return |
| `Normalizer.ByDepth` | qoop/evolution/normalizer.py:23-39 | a circuit of depth at most the bound is returned unchanged; a deeper one is replaced by the first half of the depth divider's split, and the second half is discarded |
| `Normalizer.ByDepthMeetsBound` | qoop/evolution/normalizer.py:33-38 | if the divider always keeps the depth within the bound, the normaliser's result is within the bound and applying it twice equals applying it once |
| `Normalizer.ByNumRotationGate` | qoop/evolution/normalizer.py:42-62 | only gates named exactly rx, ry or rz are counted; a circuit with at most the bound of them is returned unchanged; otherwise the result is the first half of the rotation divider's split |
| `Normalizer.ByNumRotationGateMeetsBound` | qoop/evolution/normalizer.py:52-60 | if the divider always keeps the rotation count within the bound, the normaliser's result is within the bound and applying it twice equals applying it once |

## Left out

- `layerflip_mutate` (`mutate.py:71-89`) is not modelled. Everything it does goes through `divide_circuit_by_depth`, `compose_circuit`, `truncate_circuit` and `generate_with_pool`, and those are not part of this model.
- The random number generator and the float comparison `random.random() < prob_mutate` are not modelled. They are replaced by explicit coins, one per position, and one finite draw list per position.
- The unbounded `while True` loops are replaced by a search of a finite draw list, so the model does not show that they terminate:
  - `specific_mutate` requires an acceptable draw to exist.
  - The constrained bitflip returns `Stuck(j)` when the draws for a hit position `j` hold no acceptable gate at the moment `j` is visited. Whether a draw is acceptable there depends on the rotation count the earlier visits left, so no fixed precondition can say it in advance.
- Mutate.SpecificMutate: the index must be in range. The source takes Python's negative indexing and the `IndexError` for an index out of range from `qc.data`. The docstring restricts the index to 0 .. num_gates - 1, and the model requires that. The model also requires a first target qubit whenever the rebinding reads one. Without it the source raises `IndexError`.
- qiskit's gate constructors, `Parameter` and `ParameterVector` are reduced to a pool entry's name, arity and parameter count. The model assumes that an entry builds a gate of the arity it declares. Parameter names are the integer position rather than the string `f'{index}'`. The case of a negative `num_params` is not modelled.
- In-place mutation and aliasing of `qc.data` are not modelled. Every operator returns a new circuit value.
- The dividers (`qoop/evolution/divider`) and qiskit's `depth()` are not part of this model. They are function parameters with no assumed contract. The lemmas about a normaliser meeting its bound state their assumption about the divider as a precondition.
- The default arguments `prob_mutate = 0.1` (`mutate.py:33`, `52`, `133`) and `num_qubits = 4` (`mutate.py:133`) are not modelled. The mutation probability only shapes the coins, which are inputs here. `numQubits` is always an explicit parameter, so the model does not show that by default the rotation floor is 4 rather than the circuit's own qubit count.
- Mutate.BitflipMutateWithNormalizer: its contract states the composition "normalise the bitflip result" directly. Everything known about the bitflip result comes from `Mutate.BitflipMutate`.
