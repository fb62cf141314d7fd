# Variational embedding circuits, modelled in Dafny

The repository trains quantum feature maps ("embeddings") with PennyLane and classifies
new inputs with a fidelity classifier. This project models two parts of it:

- The circuits the feature maps issue.
- The classifier's bookkeeping around the overlaps.

The rest stays outside: the quantum state and the numbers the circuits produce.

**Feature maps as gate tapes.** A PennyLane template issues gates onto the tape of the
enclosing qnode, one call at a time. Each feature map is modelled as a method that takes
the tape so far and returns it extended. Its loops are `for`/`while` loops that carry
invariants, and each method is proved against a function that states the whole circuit.
A gate is modelled as `Gate(kind, wires, angle)`. Its angle is symbolic:

- `W(i)` is `weights[i]`;
- `W2(l, i)` is `weights[l][i]`;
- `X(i)` is `x[i]`, and `XScalar` is a scalar `x`;
- `PiOver4`;
- `Two(a)` is `2 * a`;
- `Prod(a, b)` is `a * b`.

Since angles are symbolic, "which weights a circuit reads, and how often" is a
computable count, `Uses(gates, i)`. The model proves its central properties with that
count:

- each weight the size check demands is read exactly once;
- no weight past the demanded count is read;
- where the code deviates from this, the exact weight that is skipped or shared.

The maps modelled are the following.

| map | source file | gates per layer |
|---|---|---|
| `qaoa` | `featuremaps.py` | encoding, Ising ring couplers `_entanglerZ`, local fields, closing encoding block |
| `HVA_XXZ` | `featuremaps.py` | `qaoa` with circuit_ID 1 |
| `shallow_circuit` | `featuremaps.py` | circuits 11, 12, 18 and 19 |
| `HVA_TFIM_2D_data`, `HVA_TFIM_1D_data` | `featuremaps.py` | fixed four-wire maps |
| `VQC` | `featuremaps.py` | circuits 5 and 6 |
| `pars_*` | `featuremaps.py` | weight initialisers |
| `random_gate_sequence`, `random_embedding_circuit` | random-unitary embedding file | Pauli rotations chosen at random |
| `embedding_circuit` | risk-function file | two-dimensional input |
| `embedding_circuit` | overlap / Fourier-analysis files | scalar input; the two files are the same code |

**Python exceptions** are modelled as `Result` values, using one error reason per
`raise`:

- `ValueError`, with the message's parameters;
- `IndexError`, for an index past the end of `x`, `weights` or a weight row;
- `ZeroDivisionError`.

When an exception ends a qnode part-way through, the gates issued before it are
discarded with the qnode. The model therefore returns the error alone.

**Fidelity classifier** (`fidelity.py`):

- `negate` is modelled on lists and scalars.
- The three implementations (`fast`, `circuit`, `exact`) are the same mean-of-overlaps
  loops over different per-pair overlap functions. These functions are parameters of the
  model (`Overlaps`).
- `predict` is modelled:
  - splitting the training set into the classes +1 and -1;
  - the length checks on `probs_A` and `probs_B`;
  - sampling with replacement;
  - the choice of implementation;
  - the three-way decision.
- `accuracy` is modelled as its loop over `zip(X, Y)`.
- Random draws are modelled as any draw numpy may return. Each is a `:|` choice over the
  valid draws.

Where the docstring of `predict` and its code disagree, the model follows the code. The
docstring says "If True, return probability". The code returns the labels 1, -1 or 0 when
`binary` is true, and `overlap_A - overlap_B` otherwise.

In `predict` the implementation is checked after the sampling, as in the code, so a
draw error wins over an unknown implementation.

Both HVA_TFIM maps overwrite their `wires` argument with `range(0, 4)`. The model
therefore has no `wires` parameter for them.

## Model

| member | source | states |
|---|---|---|
| FeatureMaps.EntanglerZUses | Simulation_of_Variational_Circuits/featuremaps.py:19-22 | The Ising coupler reads the weights in its angle exactly once and nothing else; it acts only on its two wires: a CNOT from w2 to w1 around one rotation on w1. |
| FeatureMaps.ChainNeeded | Simulation_of_Variational_Circuits/featuremaps.py:44-51 | The number of weights the chain maps demand: n_layers on one wire, 3 per layer on two wires, 2n per layer otherwise. |
| FeatureMaps.ChainCount | Simulation_of_Variational_Circuits/featuremaps.py:44-51 | The demand, defined as n_layers slices of a per-layer count, is the if-chain the maps write: n_layers on one wire, 3 n_layers on two, 2n n_layers otherwise. |
| FeatureMaps.EmitQaoaEncoding | Simulation_of_Variational_Circuits/featuremaps.py:64-73 | The encoding loop leaves the tape extended by exactly the encoding block, on any circuit_ID. |
| FeatureMaps.EmitLocalFields | Simulation_of_Variational_Circuits/featuremaps.py:98-102 | The local-field loop appends one field per wire, reading weights[base + i] for wire i. |
| FeatureMaps.EmitCouplers | Simulation_of_Variational_Circuits/featuremaps.py:91-96 | The coupling loop appends n couplers; coupler i reads weights[base + i]; the last coupler closes the ring back to wire 0. |
| FeatureMaps.EmitPairBody | Simulation_of_Variational_Circuits/featuremaps.py:82-89 | On two wires a layer appends one coupler by weight 3l + 2, then the fields by 3l and 3l + 1. |
| FeatureMaps.EmitRingBody | Simulation_of_Variational_Circuits/featuremaps.py:90-102 | On three or more wires a layer appends the ring of couplers, then the fields. |
| FeatureMaps.EmitQaoaBody | Simulation_of_Variational_Circuits/featuremaps.py:75-102 | One layer after its encoding, on each of the one-wire, two-wire and ring cases. |
| FeatureMaps.EmitQaoaLayers | Simulation_of_Variational_Circuits/featuremaps.py:61-102 | The layer loop appends n_layers layers in order. |
| FeatureMaps.Qaoa | Simulation_of_Variational_Circuits/featuremaps.py:26-114 | qaoa raises "at most n features" when len(x) > n wires, else "needs k weights" on a wrong weight count, else issues its layers and then the closing encoding block. |
| FeatureMaps.HvaXxz | Simulation_of_Variational_Circuits/featuremaps.py:234-297 | HVA_XXZ makes the same two checks with the same errors, and issues exactly the circuit qaoa issues with circuit_ID 1. |
| FeatureMaps.QaoaEncodingUsesNone | Simulation_of_Variational_Circuits/featuremaps.py:64-73 | The encoding blocks read no weight. |
| FeatureMaps.LocalFieldsUses | Simulation_of_Variational_Circuits/featuremaps.py:98-102 | With circuit_ID 1 or 2 the fields read weights base .. base + n - 1 once each; with any other ID they read none. |
| FeatureMaps.CouplersUses | Simulation_of_Variational_Circuits/featuremaps.py:91-96 | The ring couplers read weights base .. base + n - 1 once each, whatever the ID. |
| FeatureMaps.SingleFieldUses | Simulation_of_Variational_Circuits/featuremaps.py:76-80 | On one wire, layer l reads weights[l] once with circuit_ID 1 or 2, and nothing otherwise. |
| FeatureMaps.PairBodyUses | Simulation_of_Variational_Circuits/featuremaps.py:82-89 | On two wires, layer l reads weights 3l .. 3l + 2 once each with circuit_ID 1 or 2; any other ID reads only the coupler weight 3l + 2. |
| FeatureMaps.RingBodyUses | Simulation_of_Variational_Circuits/featuremaps.py:90-102 | On three or more wires, layer l reads its 2n weights once each with circuit_ID 1 or 2, and only its n coupler weights otherwise. |
| FeatureMaps.QaoaLayerUses | Simulation_of_Variational_Circuits/featuremaps.py:61-102 | Layer l reads each weight at most once and only inside its own slice; with circuit_ID 1 or 2 it reads every weight of that slice. |
| FeatureMaps.QaoaReadsEachWeightOnce | Simulation_of_Variational_Circuits/featuremaps.py:44-114 | With circuit_ID 1 or 2, qaoa reads every demanded weight exactly once and no other index. |
| FeatureMaps.QaoaReadsAtMostOnce | Simulation_of_Variational_Circuits/featuremaps.py:44-114 | Whatever the circuit_ID, qaoa reads no weight twice and none outside the demanded range. |
| FeatureMaps.QaoaRingCoupler | Simulation_of_Variational_Circuits/featuremaps.py:91-96 | In a ring layer, the coupler at position i joins wire i to wire (i + 1) mod n with weight 2nl + i; the boundary is periodic. |
| FeatureMaps.QaoaEncodingAt | Simulation_of_Variational_Circuits/featuremaps.py:64-73 | The encoding block puts x[i] on wire i by RX (ID 1) or RY (ID 2), and a Hadamard on every wire past the data. |
| FeatureMaps.QaoaBodyLength | Simulation_of_Variational_Circuits/featuremaps.py:75-102 | The gate count of a layer after its encoding, with circuit_ID 1 or 2. |
| FeatureMaps.QaoaLayerLength | Simulation_of_Variational_Circuits/featuremaps.py:61-102 | A layer has 2, 7 or 5n gates on one, two or n ≥ 3 wires, and starts with the encoding block. |
| FeatureMaps.QaoaGateCount | Simulation_of_Variational_Circuits/featuremaps.py:61-114 | The whole circuit has layers × (gates per layer) + n gates. |
| FeatureMaps.ParsQaoa | Simulation_of_Variational_Circuits/featuremaps.py:118-131 | pars_qaoa returns exactly as many weights as qaoa demands, each 0.001. |
| ShallowCircuit.EmitEncoding | Simulation_of_Variational_Circuits/featuremaps.py:175-186 | Raises "Wrong circuit_ID" exactly when a data wire meets an ID other than 11, 12, 18 and 19; otherwise it appends the encoding block: RX (18, 19) or RY (11, 12) on data wires, Hadamards past them. |
| ShallowCircuit.EmitFinalEncoding | Simulation_of_Variational_Circuits/featuremaps.py:222-230 | The closing block: RX on data wires under 18 and 19, nothing on them otherwise, Hadamards past the data. |
| ShallowCircuit.EmitZFields | Simulation_of_Variational_Circuits/featuremaps.py:205-208 | The ring layer's RZ fields by weights base + i, for circuits 18 and 19 only. |
| ShallowCircuit.EmitControlled | Simulation_of_Variational_Circuits/featuremaps.py:200-203 | A coupler is CRZ under 18, CRX under 19, and nothing under any other ID. |
| ShallowCircuit.EmitRingCouplers | Simulation_of_Variational_Circuits/featuremaps.py:210-220 | The coupling loop as written: i = 0 couples the last wire to wire 0, 0 < i < n - 1 couples wire i to i + 1, i = n - 1 issues nothing. |
| ShallowCircuit.EmitPairBody | Simulation_of_Variational_Circuits/featuremaps.py:193-203 | On two wires, any ID other than 18 and 19 raises "Wrong circuit_ID"; otherwise two RZ fields by 3l and 3l + 1, then a coupler from wire 1 to wire 0 by 3l + 2. |
| ShallowCircuit.EmitRingBody | Simulation_of_Variational_Circuits/featuremaps.py:204-220 | On three or more wires: the RZ fields, then the coupling loop as written. |
| ShallowCircuit.EmitBody | Simulation_of_Variational_Circuits/featuremaps.py:188-220 | After its encoding, a layer raises only in the two-wire case with a wrong ID. The one-wire case issues RZ(weights[l]) under 18 and 19. |
| ShallowCircuit.EmitLayers | Simulation_of_Variational_Circuits/featuremaps.py:172-220 | The layer loop raises "Wrong circuit_ID" exactly when it runs at least once and the ID is rejected by the encoding or the two-wire fields; otherwise it appends n_layers layers. |
| ShallowCircuit.Shallow | Simulation_of_Variational_Circuits/featuremaps.py:136-230 | shallow_circuit checks the features and the weight count as qaoa does, then raises or issues the layers and the closing encoding, as above. |
| ShallowCircuit.EncodingUsesNone | Simulation_of_Variational_Circuits/featuremaps.py:175-186 | Neither encoding block reads a weight. |
| ShallowCircuit.ControlledUses | Simulation_of_Variational_Circuits/featuremaps.py:211-220 | A coupler reads its weight once under 18 and 19, and nothing otherwise. |
| ShallowCircuit.ZFieldsUses | Simulation_of_Variational_Circuits/featuremaps.py:206-208 | The RZ fields read weights base .. base + n - 1 once each under 18 and 19, and nothing otherwise. |
| ShallowCircuit.RingCouplerUses | Simulation_of_Variational_Circuits/featuremaps.py:211-220 | Coupler j < n - 1 reads coupler weight j once under 18 and 19. |
| ShallowCircuit.RingCouplerLast | Simulation_of_Variational_Circuits/featuremaps.py:210-220 | The last pass of the coupling loop issues no gate. |
| ShallowCircuit.RingCouplersUses | Simulation_of_Variational_Circuits/featuremaps.py:210-220 | As written, the coupling loop reads coupler weights 0 .. n - 2 once each, and never the last one. |
| ShallowCircuit.ShortBodyUses | Simulation_of_Variational_Circuits/featuremaps.py:188-203 | The weights one- and two-wire layers read: weights[l], or 3l .. 3l + 2, once each under 18 and 19. |
| ShallowCircuit.RingBodyUses | Simulation_of_Variational_Circuits/featuremaps.py:204-220 | A ring layer reads its fields' weights and whatever its coupling loop reads, no more. |
| ShallowCircuit.RingLayerUses | Simulation_of_Variational_Circuits/featuremaps.py:172-220 | A whole ring layer, as written, reads the first 2n - 1 weights of its slice once each under 18 and 19. |
| ShallowCircuit.EmptyLayerUses | Simulation_of_Variational_Circuits/featuremaps.py:172-220 | With no wires a layer reads nothing. |
| ShallowCircuit.ShortLayerUses | Simulation_of_Variational_Circuits/featuremaps.py:172-203 | One- and two-wire layers read every weight of their slice once under 18 and 19. |
| ShallowCircuit.LayerUses | Simulation_of_Variational_Circuits/featuremaps.py:172-220 | Layer l as written reads, under 18 and 19, the first LayerReads(n) weights of its slice once each, and nothing under another ID. |
| ShallowCircuit.ReadsAtMostOnce | Simulation_of_Variational_Circuits/featuremaps.py:157-230 | Whatever the ID, shallow_circuit reads no weight twice and none outside the demanded range. |
| ShallowCircuit.ShortReadsEachWeightOnce | Simulation_of_Variational_Circuits/featuremaps.py:157-203 | On one or two wires, circuits 18 and 19 read every demanded weight exactly once. |
| ShallowCircuit.LayerSkips | Simulation_of_Variational_Circuits/featuremaps.py:210-220 | No layer reads the last coupler weight 2nl + 2n - 1 of any layer l. |
| ShallowCircuit.LastCouplerDemanded | Simulation_of_Variational_Circuits/featuremaps.py:157-170 | That weight lies inside the vector the size check demands. |
| ShallowCircuit.SkipsLastCouplerWeight | Simulation_of_Variational_Circuits/featuremaps.py:157-220 | On three or more wires, whatever the ID, every layer has a demanded weight the circuit never reads. |
| ShallowCircuit.FirstPairNeverCoupled | Simulation_of_Variational_Circuits/featuremaps.py:210-220 | On any n ≥ 3 distinct wires the coupling loop as written issues no gate between wires 0 and 1, in either direction. |
| ShallowCircuit.CouplerAvoidsFirstPair | Simulation_of_Variational_Circuits/featuremaps.py:210-220 | Each single pass of that loop avoids the pair of wires 0 and 1. |
| ShallowCircuit.ControlledWires | Simulation_of_Variational_Circuits/featuremaps.py:200-203 | A coupler acts on its control and target wire, in that order. |
| ShallowCircuit.EncodingLength | Simulation_of_Variational_Circuits/featuremaps.py:175-186 | Under an ID the encoding accepts, the encoding block has one gate per wire. |
| ShallowCircuit.FinalEncodingPrefixLength | Simulation_of_Variational_Circuits/featuremaps.py:222-230 | The first k passes of the closing loop issue k gates under 18 and 19 and k - d otherwise. |
| ShallowCircuit.FinalEncodingLength | Simulation_of_Variational_Circuits/featuremaps.py:222-230 | The closing block has n gates under 18 and 19 and n - d (the Hadamards) under any other ID. |
| ShallowCircuit.BodyLength | Simulation_of_Variational_Circuits/featuremaps.py:188-220 | After its encoding a layer issues, under 18 and 19, 1 gate on one wire, 3 on two and 2n - 1 on n ≥ 3 (n fields, n - 1 couplers); nothing under an accepted other ID. |
| ShallowCircuit.LayerLength | Simulation_of_Variational_Circuits/featuremaps.py:172-220 | Under an accepted ID a layer has 3n - 1 gates under 18 and 19 (2, 5, 3n - 1 on one, two, n ≥ 3 wires) and n gates under any other ID. |
| ShallowCircuit.GateCount | Simulation_of_Variational_Circuits/featuremaps.py:157-230 | The whole circuit has n_layers × (gates per layer) + the closing block's gates. |
| ShallowCircuit.ThreeWireCouplers | Simulation_of_Variational_Circuits/featuremaps.py:210-220 | On wires a, b, c under circuit 18 the coupling loop issues exactly CRZ(c → a) and CRZ(b → c): wires a and b are never coupled. |
| ShallowCircuit.IntendedCouplersUses | Simulation_of_Variational_Circuits/featuremaps.py:210-220 | The corrected coupling loop reads every coupler weight once under 18 and 19. |
| ShallowCircuit.IntendedRingLayerUses | Simulation_of_Variational_Circuits/featuremaps.py:172-220 | A corrected ring layer reads all 2n weights of its slice once each. |
| ShallowCircuit.IntendedLayerUses | Simulation_of_Variational_Circuits/featuremaps.py:172-220 | A corrected layer, on any number of wires, reads every weight of its slice once under 18 and 19. |
| ShallowCircuit.IntendedCouplerAt | Simulation_of_Variational_Circuits/featuremaps.py:210-220 | Corrected coupler i joins ring neighbours (i - 1) mod n and i by coupler weight i: n couplers closing the ring. |
| ShallowCircuit.IntendedReadsEachWeightOnce | Simulation_of_Variational_Circuits/featuremaps.py:157-230 | With the corrected coupling, circuits 18 and 19 read every demanded weight exactly once. |
| HvaTfim.EmitHadamards | Simulation_of_Variational_Circuits/featuremaps.py:327-329 | A layer opens with a Hadamard on each of the four wires. |
| HvaTfim.EmitCouplers | Simulation_of_Variational_Circuits/featuremaps.py:331-345 | The four couplers (0,1), (2,3), (0,3), (1,2), in that order. |
| HvaTfim.EmitLayer2D | Simulation_of_Variational_Circuits/featuremaps.py:325-360 | A 2-D layer raises IndexError when x has fewer than two entries, and otherwise appends the Hadamards, the couplers of its type and the RX fields. |
| HvaTfim.EmitLayers2D | Simulation_of_Variational_Circuits/featuremaps.py:325-360 | The layer loop raises IndexError exactly when it runs and x is shorter than 2. |
| HvaTfim.HvaTfim2D | Simulation_of_Variational_Circuits/featuremaps.py:299-360 | HVA_TFIM_2D_data raises "at most 4 features", then "needs k weights" (4, 2 or 6 per layer by type), then IndexError as above; otherwise it issues its layers. The RX block sits inside the loop, so it repeats per layer. |
| HvaTfim.EmitLayer1D | Simulation_of_Variational_Circuits/featuremaps.py:388-426 | A 1-D layer raises IndexError when x is empty, and otherwise appends its gates. |
| HvaTfim.EmitLayers1D | Simulation_of_Variational_Circuits/featuremaps.py:388-426 | The 1-D layer loop raises IndexError exactly when it runs and x is empty. |
| HvaTfim.HvaTfim1D | Simulation_of_Variational_Circuits/featuremaps.py:362-426 | HVA_TFIM_1D_data makes the same checks with 6, 2 or 7 weights per layer, then issues its layers. |
| HvaTfim.ParsHva | Simulation_of_Variational_Circuits/featuremaps.py:480-492 | pars_HVA returns exactly as many weights as HVA_TFIM_2D_data demands, each 0.001. |
| HvaTfim.ParsHvaTfim1D | Simulation_of_Variational_Circuits/featuremaps.py:494-506 | pars_HVA_TFIM_1D_data returns exactly as many weights as HVA_TFIM_1D_data demands, each 0.001. |
| HvaTfim.CouplersUses | Simulation_of_Variational_Circuits/featuremaps.py:331-345 | The four couplers read exactly the weights of their four angles. |
| HvaTfim.LayerSplitUses | Simulation_of_Variational_Circuits/featuremaps.py:325-360 | The Hadamards read no weight; a layer reads what its couplers and fields read. |
| HvaTfim.Layer2DUses | Simulation_of_Variational_Circuits/featuremaps.py:325-360 | What a 2-D layer reads, per type: its own slice once each (types 1 and other); weight 2l four times and 2l + 1 twice (type 2). |
| HvaTfim.Layer1DUses | Simulation_of_Variational_Circuits/featuremaps.py:388-426 | What a 1-D layer reads, per type: its own slice once each (types 1 and other); weight 2l four times and 2l + 1 three times (type 2). |
| HvaTfim.Tfim2DReadsEachWeightOnce | Simulation_of_Variational_Circuits/featuremaps.py:310-360 | For types other than 2, the 2-D map reads every demanded weight exactly once and nothing else. |
| HvaTfim.Tfim1DReadsEachWeightOnce | Simulation_of_Variational_Circuits/featuremaps.py:373-426 | For types other than 2, the 1-D map reads every demanded weight exactly once and nothing else. |
| HvaTfim.Tfim2DSharedWeights | Simulation_of_Variational_Circuits/featuremaps.py:336-340 | Type 2 shares parameters in the 2-D map: in layer l, weight 2l drives all four couplers and 2l + 1 both fields. |
| HvaTfim.Tfim1DSharedWeights | Simulation_of_Variational_Circuits/featuremaps.py:399-403 | Type 2 shares parameters in the 1-D map: weight 2l drives all four couplers and 2l + 1 the three weight fields. |
| HvaTfim.SharedReadsNothingElse | Simulation_of_Variational_Circuits/featuremaps.py:336-356 | Under type 2 neither map reads a weight outside 0 .. 2 n_layers - 1. |
| HvaTfim.Fields1DMissesWire2 | Simulation_of_Variational_Circuits/featuremaps.py:423-426 | As written, the 1-D fields of types other than 1 and 2 go to wires 0, 1, 1, 3: wire 2 gets no field. |
| HvaTfim.IntendedFields1DWires | Simulation_of_Variational_Circuits/featuremaps.py:412-426 | The corrected fields go to wires 0, 1, 2, 3, the same wire set as the fields of the 2-D map. |
| HvaTfim.IntendedLayer1DUses | Simulation_of_Variational_Circuits/featuremaps.py:412-426 | The correction reads the same weights as the code does. |
| HvaTfim.LayerLength | Simulation_of_Variational_Circuits/featuremaps.py:325-426 | Every layer of either map issues 20 gates: 4 Hadamards, 4 couplers of 3 gates each, 4 RX. |
| HvaTfim.GateCount | Simulation_of_Variational_Circuits/featuremaps.py:299-426 | Either map issues 20 × n_layers gates. |
| Vqc.EmitDataRX | Simulation_of_Variational_Circuits/featuremaps.py:451-452 | RX(x[i]) on wire i for each feature. |
| Vqc.EmitWeightRX | Simulation_of_Variational_Circuits/featuremaps.py:454-455 | RX by weights base + i on the wires past the data. |
| Vqc.EmitRZRow | Simulation_of_Variational_Circuits/featuremaps.py:457-458 | RZ by weights base + i on every wire. |
| Vqc.PairGateAt | Simulation_of_Variational_Circuits/featuremaps.py:460-467 | Pass m of the inner reversed loop is the pair (i, n - 1 - m), skipping i itself. |
| Vqc.EmitPairRow | Simulation_of_Variational_Circuits/featuremaps.py:461-467 | The inner reversed loop for control i appends the controlled rotations to every other wire, by the weight index as written. |
| Vqc.EmitEntangling | Simulation_of_Variational_Circuits/featuremaps.py:460-467 | The double reversed loop appends CRX (type 1), CRZ (type 2) or nothing, for every ordered pair of distinct wires; Vqc.EntanglingLength and Vqc.EntanglingAt give the count and the order. |
| Vqc.PairRowPrefixLength | Simulation_of_Variational_Circuits/featuremaps.py:461-467 | The first m passes of the inner loop issue one gate each, except the pass whose target is the control itself. |
| Vqc.PairRowAt | Simulation_of_Variational_Circuits/featuremaps.py:461-467 | For types 1 and 2 control row i has n - 1 gates; the rotation to target j sits after those to the targets above j other than i. |
| Vqc.EntanglingLength | Simulation_of_Variational_Circuits/featuremaps.py:460-467 | For types 1 and 2 the entangling block of a layer has n(n - 1) gates, on any number of wires. |
| Vqc.EntanglingAt | Simulation_of_Variational_Circuits/featuremaps.py:460-467 | For types 1 and 2 the rotation from wire i to wire j ≠ i, by weight base + slot(i, j), is gate (n - 1 - i)(n - 1) + #{j' > j : j' ≠ i} of the block. |
| Vqc.RotationsLength | Simulation_of_Variational_Circuits/featuremaps.py:451-458 | Each half's three rotation rows have 2n gates. |
| Vqc.LayerLength | Simulation_of_Variational_Circuits/featuremaps.py:448-477 | A layer has n(n + 3) gates for types 1 and 2 and 4n for any other type. |
| Vqc.GateCount | Simulation_of_Variational_Circuits/featuremaps.py:428-477 | VQC issues n_layers × (gates per layer) gates. |
| Vqc.EmitRotations | Simulation_of_Variational_Circuits/featuremaps.py:451-458 | The rotation rows of the first half. |
| Vqc.EmitFirstHalf | Simulation_of_Variational_Circuits/featuremaps.py:451-467 | The rotation rows, then the entangling block. |
| Vqc.EmitSecondHalf | Simulation_of_Variational_Circuits/featuremaps.py:470-477 | The data RX, the weight RX by base + n(n+1) - d + i, and the RZ by base + n(n+2) - 2d + i. |
| Vqc.EmitLayer | Simulation_of_Variational_Circuits/featuremaps.py:448-477 | Layer l appends its first and second halves, from weight base l × (n(n+3) - 2d). |
| Vqc.EmitLayers | Simulation_of_Variational_Circuits/featuremaps.py:448-477 | The layer loop appends n_layers layers. |
| Vqc.VQC | Simulation_of_Variational_Circuits/featuremaps.py:428-477 | VQC raises "at most n features", then "needs k weights" with k = n_layers (n(n+3) - 2d), else issues its layers. |
| Vqc.ParsVqc | Simulation_of_Variational_Circuits/featuremaps.py:508-512 | pars_VQC fails exactly when n_layers × (n(n+3) - 2 x_dim) is negative, a negative array size; otherwise it returns that many copies of one drawn value. |
| Vqc.IntendedSlotInRow | Simulation_of_Variational_Circuits/featuremaps.py:460-467 | The corrected index of pair (i, j) stays inside row i's n - 1 slots. |
| Vqc.IntendedSlotsApart | Simulation_of_Variational_Circuits/featuremaps.py:460-467 | Distinct targets of one control get distinct corrected slots. |
| Vqc.AsWrittenSlotsCollide | Simulation_of_Variational_Circuits/featuremaps.py:465-467 | As written, i(n - 1) + j gives pairs (0, n - 1) and (1, 0) the same slot n - 1, and no pair gets slot 0. |
| Vqc.ControlledUses | Simulation_of_Variational_Circuits/featuremaps.py:464-467 | A controlled rotation reads its weight once for types 1 and 2. |
| Vqc.IntendedPairGateUses | Simulation_of_Variational_Circuits/featuremaps.py:460-467 | A corrected pair gate reads its own slot once and nothing else. |
| Vqc.IntendedRowUses | Simulation_of_Variational_Circuits/featuremaps.py:460-467 | Corrected row i reads slots i(n - 1) .. i(n - 1) + n - 2 once each. |
| Vqc.IntendedEntanglingUses | Simulation_of_Variational_Circuits/featuremaps.py:460-467 | The corrected entangling block reads its n(n - 1) weights once each. |
| Vqc.AsWrittenEntanglingSkipsFirst | Simulation_of_Variational_Circuits/featuremaps.py:460-467 | As written, the entangling block never reads its first weight. |
| Vqc.TwoWireEntanglingAsWritten | Simulation_of_Variational_Circuits/featuremaps.py:460-467 | On two wires under type 1 the block is CRX(1 → 0) and CRX(0 → 1), both by weight base + 1; weight base is never read. |
| Vqc.DataRXUses | Simulation_of_Variational_Circuits/featuremaps.py:451-452 | The data rotations read no weight. |
| Vqc.WeightRXUses | Simulation_of_Variational_Circuits/featuremaps.py:454-455 | The weight RX row reads base .. base + n - d - 1 once each. |
| Vqc.RZRowUses | Simulation_of_Variational_Circuits/featuremaps.py:457-458 | The RZ row reads base .. base + n - 1 once each. |
| Vqc.LayerBounds | Simulation_of_Variational_Circuits/featuremaps.py:437-477 | The offsets the code writes (2n - d, n(n+1) - d, n(n+2) - 2d) tile the n(n+3) - 2d weights of a layer. |
| Vqc.RotationsUses | Simulation_of_Variational_Circuits/featuremaps.py:451-458 | The first rotation rows read the layer's first 2n - d weights once each. |
| Vqc.FirstHalfUses | Simulation_of_Variational_Circuits/featuremaps.py:451-467 | With the corrected index, the first half reads the layer's first n(n+1) - d weights once each. |
| Vqc.SecondHalfUses | Simulation_of_Variational_Circuits/featuremaps.py:470-477 | The second half reads the layer's remaining 2n - d weights once each. |
| Vqc.IntendedLayerUses | Simulation_of_Variational_Circuits/featuremaps.py:448-477 | A corrected layer reads every weight of its slice once. |
| Vqc.IntendedReadsEachWeightOnce | Simulation_of_Variational_Circuits/featuremaps.py:435-477 | With the corrected index, VQC reads every demanded weight exactly once and nothing else. |
| Vqc.SlotInRange | Simulation_of_Variational_Circuits/featuremaps.py:465-467 | Under either index rule, a pair's slot stays inside the n(n - 1) entangling weights. |
| Vqc.EntanglingOutside | Simulation_of_Variational_Circuits/featuremaps.py:460-467 | The entangling block reads no weight outside its own n(n - 1). |
| Vqc.OtherTypesNoEntangling | Simulation_of_Variational_Circuits/featuremaps.py:460-467 | For types other than 1 and 2 the entangling block issues nothing. |
| Vqc.FirstHalfOutside | Simulation_of_Variational_Circuits/featuremaps.py:451-467 | The first half reads nothing outside its first n(n + 1) - d weights. |
| Vqc.LayerOutside | Simulation_of_Variational_Circuits/featuremaps.py:448-477 | A layer, as written or corrected, reads nothing outside its own slice. |
| Vqc.AsWrittenLayerSkips | Simulation_of_Variational_Circuits/featuremaps.py:460-467 | As written, a layer never reads its own weight base + 2n - d. |
| Vqc.CouplerWeightDemanded | Simulation_of_Variational_Circuits/featuremaps.py:437-446 | That weight lies inside the vector the size check demands. |
| Vqc.AsWrittenLayerJSkips | Simulation_of_Variational_Circuits/featuremaps.py:448-477 | No layer reads weight base + 2n - d of any layer l. |
| Vqc.AsWrittenSkipsCouplerWeight | Simulation_of_Variational_Circuits/featuremaps.py:435-477 | On two or more wires, every layer of VQC has a demanded weight the circuit never reads. |
| Fidelity.Negate | Simulation_of_Variational_Circuits/fidelity.py:19-23 | negate keeps a list a list of the same length with every entry negated, and negates a scalar. |
| Fidelity.NegateTwice | Simulation_of_Variational_Circuits/fidelity.py:19-23 | negate is an involution, which the inverse embedding of `_fast` relies on. |
| Fidelity.ParseImpl | Simulation_of_Variational_Circuits/fidelity.py:205-215 | The implementation is exact, circuit or fast exactly for those three strings; everything else is unrecognized. |
| Fidelity.Mean | Simulation_of_Variational_Circuits/fidelity.py:55-58 | A mean raises ZeroDivisionError exactly on an empty sample. |
| Fidelity.SumBounds | Simulation_of_Variational_Circuits/fidelity.py:55-58 | Bounds on every overlap bound the sum by the count times those bounds. |
| Fidelity.MeanBounds | Simulation_of_Variational_Circuits/fidelity.py:55-58 | The mean of overlaps in [lo, hi] lies in [lo, hi]. |
| Fidelity.SumConstant | Simulation_of_Variational_Circuits/fidelity.py:55-58 | A constant overlap sums to the count times that constant. |
| Fidelity.MeanConstant | Simulation_of_Variational_Circuits/fidelity.py:55-58 | A constant overlap has that constant as its mean. |
| Fidelity.MeanOverlap | Simulation_of_Variational_Circuits/fidelity.py:55-64 | The accumulate-then-divide loop computes the mean, or raises ZeroDivisionError on no samples. |
| Fidelity.Estimate | Simulation_of_Variational_Circuits/fidelity.py:54-66 | The pair of means fails exactly when either class sample is empty, and otherwise holds the mean overlap with A and with B. |
| Fidelity.Means | Simulation_of_Variational_Circuits/fidelity.py:54-66 | The two loops, A then B, compute that pair. |
| Fidelity.Fast | Simulation_of_Variational_Circuits/fidelity.py:34-66 | `_fast` returns the mean overlap-with-zero values against A and B. |
| Fidelity.Circuit | Simulation_of_Variational_Circuits/fidelity.py:69-107 | `_circuit` returns the mean swap-test values against A and B. |
| Fidelity.Exact | Simulation_of_Variational_Circuits/fidelity.py:110-152 | `_exact` returns the mean squared state overlaps against A and B. |
| Fidelity.ExactOrderIrrelevant | Simulation_of_Variational_Circuits/fidelity.py:146-150 | With a symmetric overlap, the order in which `_exact` takes the inner product does not change the estimate. |
| Fidelity.SumAgrees | Simulation_of_Variational_Circuits/fidelity.py:146-150 | Overlaps that agree on the samples give the same sum. |
| Fidelity.Compare | Simulation_of_Variational_Circuits/fidelity.py:217-223 | The binary decision is 1 exactly when overlap_A > overlap_B, -1 exactly when it is smaller, and 0 exactly on a tie. |
| Fidelity.Decide | Simulation_of_Variational_Circuits/fidelity.py:217-225 | With binary the result is that label; without, it is overlap_A - overlap_B. |
| Fidelity.DecideSwap | Simulation_of_Variational_Circuits/fidelity.py:217-225 | Swapping the classes flips the label and negates the score. |
| Fidelity.Outcome | Simulation_of_Variational_Circuits/fidelity.py:205-225 | An unknown implementation raises its ValueError, an empty class raises ZeroDivisionError, and otherwise the decision is made on the two means. |
| Fidelity.SelectExactly | Simulation_of_Variational_Circuits/fidelity.py:184-185 | X[Y == tag] has one row per label equal to tag; its rows are exactly the rows labelled tag. |
| Fidelity.ClassesPartition | Simulation_of_Variational_Circuits/fidelity.py:184-185 | Class A, class B and the rows labelled neither make up the training set. |
| Fidelity.CountSplit | Simulation_of_Variational_Circuits/fidelity.py:184-185 | The labels split into +1, -1 and the rest. |
| Fidelity.SumNonPositive | Simulation_of_Variational_Circuits/fidelity.py:200-203 | Non-positive weights have a non-positive sum. |
| Fidelity.PositiveEntry | Simulation_of_Variational_Circuits/fidelity.py:200-203 | A probability vector has an entry of positive weight, so a weighted draw always exists. |
| Fidelity.Draw | Simulation_of_Variational_Circuits/fidelity.py:200-203 | np.random.choice raises on an empty population, on probabilities of the wrong length and on weights that are not a distribution; otherwise it returns n indices into the class, never one of weight 0. |
| Fidelity.Pick | Simulation_of_Variational_Circuits/fidelity.py:201-203 | A[select] has one row per drawn index, the row it names. |
| Fidelity.Predict | Simulation_of_Variational_Circuits/fidelity.py:155-225 | predict raises on mismatched `probs_A`, then `probs_B`. Without n_samples it decides on the full classes. With n_samples it draws A, then B, raising the first draw error, and decides on the drawn rows. It raises exactly the error PredictError names (pre-checks, draws, unknown implementation, empty class or draw), whatever x_new is, and with binary True its result is a sign predict may return for x_new. |
| Fidelity.Matches | Simulation_of_Variational_Circuits/fidelity.py:243-257 | The number of correct predictions never exceeds the number of test points. |
| Fidelity.Ratio | Simulation_of_Variational_Circuits/fidelity.py:259 | The accuracy ratio raises ZeroDivisionError exactly on no test points and otherwise lies in [0, 1]. |
| Fidelity.AllMatch | Simulation_of_Variational_Circuits/fidelity.py:254-257 | Predictions equal to the labels all count. |
| Fidelity.TiesNeverMatch | Simulation_of_Variational_Circuits/fidelity.py:254-257 | With ±1 labels, a tie (prediction 0) is never counted correct. |
| Fidelity.CountAtMost | Simulation_of_Variational_Circuits/fidelity.py:184-185 | A label count never exceeds the number of labels. |
| Fidelity.MatchesExtend | Simulation_of_Variational_Circuits/fidelity.py:254-257 | One more test point adds one match exactly when its prediction equals its label. |
| Fidelity.Accuracy | Simulation_of_Variational_Circuits/fidelity.py:228-259 | accuracy raises ZeroDivisionError on an empty zip; otherwise it raises exactly the error every predict call raises (pre-checks, draw errors, unknown implementation, empty class), and succeeds when there is none. On success prediction k is a sign predict may return for test point k (on the full classes, or on some valid pair of draws), one per zipped point, and the result is the fraction of points whose prediction equals their label, in [0, 1]. |
| ScalarEmbedding.EmitLayer | overlap_vs_HS_cost/embeddings_circuit.py:13-18 | One layer: RX(x) on every wire, then RY(weights[l][i]) on wire i. |
| ScalarEmbedding.EmitLayers | overlap_vs_HS_cost/embeddings_circuit.py:13-18 | The layer loop raises IndexError exactly when some weight row is shorter than the wires, and otherwise appends one layer per row. |
| ScalarEmbedding.EmbeddingCircuit | overlap_vs_HS_cost/embeddings_circuit.py:9-21 | The scalar embedding raises IndexError exactly when a weight row is too short, and otherwise issues the layers, then RX(x) on every wire. |
| ScalarEmbedding.LayerAt | overlap_vs_HS_cost/embeddings_circuit.py:13-18 | A layer has 2n gates: RX(x) on wire i at position i, RY(weights[l][i]) at n + i. |
| ScalarEmbedding.LayerLength | overlap_vs_HS_cost/embeddings_circuit.py:13-18 | A layer issues 2n gates. |
| ScalarEmbedding.LayersLength | overlap_vs_HS_cost/embeddings_circuit.py:13-18 | L layers issue 2nL gates. |
| ScalarEmbedding.GateCount | overlap_vs_HS_cost/embeddings_circuit.py:9-21 | The circuit issues 2nL + n gates. |
| ScalarEmbedding.GatesAt | overlap_vs_HS_cost/embeddings_circuit.py:13-18 | In the whole circuit, layer l's RX on wire i is at 2nl + i and its RY by weights[l][i] at 2nl + n + i. |
| ScalarEmbedding.FinalAt | overlap_vs_HS_cost/embeddings_circuit.py:20-21 | The last n gates are RX(x) on each wire. |
| FourierEmbedding.EmbeddingCircuit | Fourier_analysis/1d-QAOA-Fourier/embeddings_circuit.py:6-18 | The Fourier-analysis embedding raises and issues exactly what the scalar embedding does. |
| RiskEmbedding.FinalAngle | risk_function/2d_data/embeddings_circuit.py:56-59 | The closing angle is x[0] · x[1] after an even number of layers, and x[1] after an odd number. |
| RiskEmbedding.EmitLayer | risk_function/2d_data/embeddings_circuit.py:45-54 | Layer l: RX(x[l mod 2]) on every wire, then RY(weights[l][i]) on wire i. |
| RiskEmbedding.EmitLayers | risk_function/2d_data/embeddings_circuit.py:45-54 | The layer loop raises IndexError exactly when a layer indexes past x (layer 0 needs x[0], layer 1 needs x[1]) or a weight row is too short. |
| RiskEmbedding.EmbeddingCircuit | risk_function/2d_data/embeddings_circuit.py:40-61 | The 2-D embedding raises IndexError exactly when x has fewer than two entries or a weight row is too short; otherwise it issues the layers, then the closing RX. Even with no layers the closing angle reads x[0] and x[1]. |
| RiskEmbedding.LayerAt | risk_function/2d_data/embeddings_circuit.py:45-54 | A layer has 2n gates: RX(x[l mod 2]) on wire i at i, RY(weights[l][i]) at n + i. |
| RiskEmbedding.LayersLength | risk_function/2d_data/embeddings_circuit.py:45-54 | L layers issue 2nL gates. |
| RiskEmbedding.GateCount | risk_function/2d_data/embeddings_circuit.py:40-61 | The circuit issues 2nL + n gates. |
| RiskEmbedding.GatesAt | risk_function/2d_data/embeddings_circuit.py:45-54 | Layer l's gates sit at 2nl + i and 2nl + n + i of the whole circuit, alternating the inputs x[0], x[1]. |
| RiskEmbedding.FinalAt | risk_function/2d_data/embeddings_circuit.py:56-61 | The last n gates are RX by the closing angle on each wire. |
| RandomEmbedding.RandomGateSequence | random_embedding_circuits/two_wires_random_unitary_embeddings.py:9-19 | random_gate_sequence returns num_layers rows of 2 num_wires rotation kinds from RX, RY, RZ; a negative count gives no rows or empty rows. |
| RandomEmbedding.EmitInputRow | random_embedding_circuits/two_wires_random_unitary_embeddings.py:40-41 | The chosen kinds 0 .. n - 1 rotate wire i by x. |
| RandomEmbedding.EmitWeightRow | random_embedding_circuits/two_wires_random_unitary_embeddings.py:46-47 | The chosen kinds n .. 2n - 1 rotate wire i by weights[l][i]. |
| RandomEmbedding.EmitChain | random_embedding_circuits/two_wires_random_unitary_embeddings.py:43-44 | CZ between each pair of neighbouring wires. |
| RandomEmbedding.EmitLayer | random_embedding_circuits/two_wires_random_unitary_embeddings.py:40-50 | A layer: input rotations, CZ chain, weight rotations, CZ chain. |
| RandomEmbedding.LayersNext | random_embedding_circuits/two_wires_random_unitary_embeddings.py:39-50 | Appending layer l to the first l layers gives the first l + 1. |
| RandomEmbedding.EmitLayers | random_embedding_circuits/two_wires_random_unitary_embeddings.py:39-50 | The zip loop runs over as many layers as the shorter of weights and gate_sequence. It raises IndexError exactly when one of those rows is too short for the wires, and otherwise appends the layers. |
| RandomEmbedding.RandomEmbeddingCircuit | random_embedding_circuits/two_wires_random_unitary_embeddings.py:32-53 | random_embedding_circuit raises as above, and otherwise issues RY(pi/4) on each wire, the layers, and RX(x) on each wire. |
| RandomEmbedding.ShapedFits | random_embedding_circuits/two_wires_random_unitary_embeddings.py:9-47 | A gate sequence from random_gate_sequence, with weight rows covering the wires, never makes the circuit raise. |
| RandomEmbedding.RowLength | random_embedding_circuits/two_wires_random_unitary_embeddings.py:40-47 | Each rotation row has one gate per wire. |
| RandomEmbedding.ChainAt | random_embedding_circuits/two_wires_random_unitary_embeddings.py:43-44 | The chain has n - 1 gates (none on an empty wire list); gate i is CZ on wires i and i + 1. |
| RandomEmbedding.LayerLength | random_embedding_circuits/two_wires_random_unitary_embeddings.py:40-50 | A layer issues 2n + 2(n - 1) gates. |
| RandomEmbedding.LayerInputAt | random_embedding_circuits/two_wires_random_unitary_embeddings.py:40-41 | Gate i of a layer is the i-th chosen kind rotating wire i by x. |
| RandomEmbedding.LayerWeightAt | random_embedding_circuits/two_wires_random_unitary_embeddings.py:46-47 | After the first chain, gate i is chosen kind n + i rotating wire i by weights[l][i]. |
| RandomEmbedding.GateCount | random_embedding_circuits/two_wires_random_unitary_embeddings.py:32-53 | The circuit issues 2n + depth × (2n + 2(n - 1)) gates. |
| RandomEmbedding.OpensAndCloses | random_embedding_circuits/two_wires_random_unitary_embeddings.py:36-53 | The circuit opens with RY(pi/4) on each wire and closes with RX(x) on each wire. |

## Left out

- Quantum semantics are not modelled. Gates are symbols, and no unitary, state vector,
  expectation value or overlap value is computed. The three overlap functions of the
  classifier are parameters. Nothing is claimed about their values except through those
  parameters.
- Whether `_fast` (the embedding, then the inverse embedding with negated weights and
  inputs) and the swap test of `_circuit` measure the fidelity is not modelled. That is
  quantum semantics. Only `Fidelity.NegateTwice` is proved about the negation.
- `predict` loads its settings with `np.load` and `dill` (file I/O). A `Settings` value
  stands in for them.
- The `seed` argument and `np.random.seed` are not modelled. Every draw is any valid
  draw, so repeated calls under one seed are not tied to each other.
- `cphase_inv` is not modelled: no caller in the modelled core uses it.
- `generate_data` of the risk-function file is not modelled, nor is
  Simulation_of_Variational_Circuits/generate_data.py. They generate training data with
  random numbers and issue no circuit.
- Simulation_of_Variational_Circuits/plots.py is not modelled. It is plotting code.
- Floating-point arithmetic is modelled as exact `real` arithmetic. That covers the
  means, the ratio, the comparisons of overlaps and numpy's tolerance on probabilities
  summing to 1.
- Negative `n_layers` are not modelled; the layer counts are `nat`. In most maps the
  weight-count check then rejects every weight vector, VQC with zero weights per layer
  being the exception.
- Gate recording in PennyLane is not modelled. That covers queuing contexts, operator
  objects and the conversion of a Python callable in the gate sequence into an
  operation. A recorded gate is a `Gate` value.
- A negative `n_samples` is not modelled: `n_samples` is an `Option<nat>`. For a
  negative value `np.random.choice` raises ValueError
  (Simulation_of_Variational_Circuits/fidelity.py:200), and that path is absent.
- Errors raised by the feature map inside `_fast`, `_circuit` and `_exact` are not
  modelled (Simulation_of_Variational_Circuits/fidelity.py:48-50, 83-84 and 124). The
  overlaps in `Settings` are total functions, so such an error never reaches `predict`.
  An example is qaoa's "needs k weights" when the stored weights do not fit the map.
- Fidelity.Draw: its contract states which draws numpy may return, not their
  distribution: uniform, or weighted by `probs`.
- RandomEmbedding.RandomGateSequence: its contract states the shape of the sequence and
  that every entry is RX, RY or RZ. It does not state that the choice is uniform.

## Findings

| source | as written | input that shows it | evidently intended | confidence | as-written member | corrected member |
|---|---|---|---|---|---|---|
| Simulation_of_Variational_Circuits/featuremaps.py:210-220 | The coupling loop of `shallow_circuit` on n ≥ 3 wires couples the last wire to wire 0 at i = 0, wire i to i + 1 for 0 < i < n - 1, and issues nothing at i = n - 1. Weight 2nl + 2n - 1 of every layer is demanded but never read, and wires 0 and 1 are never coupled. | Wires [a, b, c], circuit_ID 18, one layer: the loop issues CRZ(c → a) by weight 3 and CRZ(b → c) by weight 4, and weight 5 is never read. | A closed ring of n couplers, one per coupler weight, as the weight count 2n per layer and the circuit diagram show | not executed | ShallowCircuit.ThreeWireCouplers, ShallowCircuit.FirstPairNeverCoupled, ShallowCircuit.SkipsLastCouplerWeight | ShallowCircuit.IntendedCouplerAt, ShallowCircuit.IntendedReadsEachWeightOnce |
| Simulation_of_Variational_Circuits/featuremaps.py:423-426 | For `types` other than 1 and 2, the closing RX rotations of `HVA_TFIM_1D_data` put weights 7l + 4 and 7l + 5 both on wires[1], so wire 2 gets no field. | types = 3, one layer: the fields act on wires 0, 1, 1, 3 | One field per wire (0, 1, 2, 3), as the type-1 and type-2 branches do and as the 2-D map does | not executed | HvaTfim.Fields1DMissesWire2 | HvaTfim.IntendedFields1DWires, HvaTfim.IntendedLayer1DUses |
| Simulation_of_Variational_Circuits/featuremaps.py:465-467 | The weight index i(n - 1) + j of the controlled rotation from wire i to wire j counts j ≠ i as if j ran over n - 1 values. Pairs (0, n - 1) and (1, 0) share slot n - 1, and slot 0 (weight base + 2n - d of each layer) is demanded but never read. | Two wires, no data, types = 1: both CRX(1 → 0) and CRX(0 → 1) read weight 5 of the 10 demanded, and weight 4 is never read | Each of the n(n - 1) ordered pairs reads its own one of the n(n - 1) entangling weights, as the weight count per layer provides | not executed | Vqc.AsWrittenSlotsCollide, Vqc.TwoWireEntanglingAsWritten, Vqc.AsWrittenSkipsCouplerWeight | Vqc.IntendedReadsEachWeightOnce |
