/** random_embedding_circuits/two_wires_random_unitary_embeddings.py: a random choice of
    Pauli rotation kinds per layer (`random_gate_sequence`) and the layered circuit that
    uses it (`random_embedding_circuit`). A layer on n wires issues the chosen rotations
    by the scalar input x, a chain of CZ on neighbouring wires, the chosen rotations by
    the layer's weights, and the CZ chain again; around the layers stand RY(pi / 4) and
    RX(x) on every wire. */
module RandomEmbedding {
  import opened Circuit
  import opened Errors

  /** A kind `random_gate_sequence` draws from: qml.RX, qml.RY or qml.RZ. */
  type Rotation = k: Kind | IsRotation(k) witness RX

  /** A gate sequence fit for `layers` layers on n wires: 2n kinds per layer. */
  predicate Shaped(gates: seq<seq<Rotation>>, n: nat, layers: nat) {
    |gates| == layers && forall l :: 0 <= l < |gates| ==> |gates[l]| == 2 * n
  }

  /** random_gate_sequence(num_wires, num_layers): a row of 2 num_wires kinds drawn from
      RX, RY, RZ for each layer, each draw any of the three. A negative count gives an
      empty range. */
  method RandomGateSequence(numWires: int, numLayers: int) returns (gates: seq<seq<Rotation>>)
    ensures Shaped(gates, if numWires < 0 then 0 else numWires, if numLayers < 0 then 0 else numLayers)
  {
    var n: nat := if numWires < 0 then 0 else numWires;
    gates := [];
    for i := 0 to if numLayers < 0 then 0 else numLayers
      invariant Shaped(gates, n, i)
    {
      ghost var some: Rotation := RX;
      assert |seq(2 * n, _ => some)| == 2 * n;
      var row: seq<Rotation> :| |row| == 2 * n;
      gates := gates + [row];
    }
  }

  /** Gate i of the first rotation row of layer l: kinds[i](x) on wire i. */
  function InputRow(wires: seq<Wire>, kinds: seq<Rotation>): nat --> seq<Gate>
    requires |kinds| >= |wires|
  {
    (i: nat) requires i < |wires| => [Rot(kinds[i], wires[i], XScalar)]
  }

  /** Gate i of the second rotation row of layer l: kinds[n + i](weights[l][i]) on
      wire i. */
  function WeightRow(wires: seq<Wire>, kinds: seq<Rotation>, l: nat): nat --> seq<Gate>
    requires |kinds| >= 2 * |wires|
  {
    (i: nat) requires i < |wires| => [Rot(kinds[|wires| + i], wires[i], W2(l, i))]
  }

  /** Gate i of the chain: CZ on wires[i:i+2], for i < n - 1. */
  function ChainLink(wires: seq<Wire>): nat --> seq<Gate> {
    (i: nat) requires i + 1 < |wires| => [Gate(CZ, wires[i .. i + 2], NoAngle)]
  }

  function ChainLength(n: nat): nat {
    if n == 0 then 0 else n - 1
  }

  function Chain(wires: seq<Wire>): seq<Gate> {
    Repeat(ChainLength(|wires|), ChainLink(wires))
  }

  function Layer(wires: seq<Wire>, kinds: seq<Rotation>, l: nat): seq<Gate>
    requires |kinds| >= 2 * |wires|
  {
    Repeat(|wires|, InputRow(wires, kinds)) + Chain(wires) +
    Repeat(|wires|, WeightRow(wires, kinds, l)) + Chain(wires)
  }

  /** The number of layers: zip stops at the shorter of weights and gate_sequence. */
  function Depth(weights: seq<seq<real>>, gates: seq<seq<Rotation>>): nat {
    if |weights| < |gates| then |weights| else |gates|
  }

  /** Every layer of the zip has 2n kinds and n weights. */
  predicate Fits(weights: seq<seq<real>>, gates: seq<seq<Rotation>>, n: nat) {
    forall l :: 0 <= l < Depth(weights, gates) ==> |gates[l]| >= 2 * n && |weights[l]| >= n
  }

  /** Layer l of the zip, with kinds gate_sequence[l]. */
  function LayerBlock(wires: seq<Wire>, gates: seq<seq<Rotation>>): nat --> seq<Gate> {
    (l: nat) requires l < |gates| && |gates[l]| >= 2 * |wires| => Layer(wires, gates[l], l)
  }

  function Layers(wires: seq<Wire>, gates: seq<seq<Rotation>>, depth: nat): seq<Gate>
    requires depth <= |gates| && forall l :: 0 <= l < depth ==> |gates[l]| >= 2 * |wires|
  {
    Repeat(depth, LayerBlock(wires, gates))
  }

  function Gates(wires: seq<Wire>, gates: seq<seq<Rotation>>, depth: nat): seq<Gate>
    requires depth <= |gates| && forall l :: 0 <= l < depth ==> |gates[l]| >= 2 * |wires|
  {
    OnEachWire(RY, wires, PiOver4) + Layers(wires, gates, depth) + OnEachWire(RX, wires, XScalar)
  }

  method EmitInputRow(tape: seq<Gate>, wires: seq<Wire>, kinds: seq<Rotation>) returns (t: seq<Gate>)
    requires |kinds| >= |wires|
    ensures t == tape + Repeat(|wires|, InputRow(wires, kinds))
  {
    var block := InputRow(wires, kinds);
    t := tape;
    for i := 0 to |wires|
      invariant t == tape + Repeat(i, block)
    {
      ghost var before := t;
      t := t + [Rot(kinds[i], wires[i], XScalar)];
      assert t == before + block(i);
      RepeatNext(tape, i, block);
    }
  }

  method EmitWeightRow(tape: seq<Gate>, wires: seq<Wire>, kinds: seq<Rotation>, l: nat)
    returns (t: seq<Gate>)
    requires |kinds| >= 2 * |wires|
    ensures t == tape + Repeat(|wires|, WeightRow(wires, kinds, l))
  {
    var n := |wires|;
    var block := WeightRow(wires, kinds, l);
    t := tape;
    for i := 0 to n
      invariant t == tape + Repeat(i, block)
    {
      ghost var before := t;
      t := t + [Rot(kinds[n + i], wires[i], W2(l, i))];
      assert t == before + block(i);
      RepeatNext(tape, i, block);
    }
  }

  /** `for i in range(no_qubits - 1): qml.CZ(wires=wires[i:i+2])`. */
  method EmitChain(tape: seq<Gate>, wires: seq<Wire>) returns (t: seq<Gate>)
    ensures t == tape + Chain(wires)
  {
    var block := ChainLink(wires);
    t := tape;
    var k := if |wires| == 0 then 0 else |wires| - 1;
    for i := 0 to k
      invariant t == tape + Repeat(i, block)
    {
      ghost var before := t;
      t := t + [Gate(CZ, wires[i .. i + 2], NoAngle)];
      assert t == before + block(i);
      RepeatNext(tape, i, block);
    }
  }

  method EmitLayer(tape: seq<Gate>, wires: seq<Wire>, kinds: seq<Rotation>, l: nat) returns (t: seq<Gate>)
    requires |kinds| >= 2 * |wires|
    ensures t == tape + Layer(wires, kinds, l)
  {
    ghost var a := Repeat(|wires|, InputRow(wires, kinds));
    ghost var c := Chain(wires);
    ghost var b := Repeat(|wires|, WeightRow(wires, kinds, l));
    t := EmitInputRow(tape, wires, kinds);
    t := EmitChain(t, wires);
    AppendAssoc(tape, a, c);
    t := EmitWeightRow(t, wires, kinds, l);
    AppendAssoc(tape, a + c, b);
    t := EmitChain(t, wires);
    AppendAssoc(tape, a + c + b, c);
  }

  lemma LayersNext(tape: seq<Gate>, wires: seq<Wire>, gates: seq<seq<Rotation>>, l: nat)
    requires l < |gates| && forall k :: 0 <= k <= l ==> |gates[k]| >= 2 * |wires|
    ensures (tape + Layers(wires, gates, l)) + Layer(wires, gates[l], l) == tape + Layers(wires, gates, l + 1)
  {
    RepeatNext(tape, l, LayerBlock(wires, gates));
  }

  /** The layer loop over zip(weights, gate_sequence). */
  method EmitLayers(tape: seq<Gate>, weights: seq<seq<real>>, wires: seq<Wire>, gates: seq<seq<Rotation>>)
    returns (r: Result<seq<Gate>>)
    ensures r.Err? <==> !Fits(weights, gates, |wires|)
    ensures r.Err? ==> r.error == IndexError
    ensures r.Ok? ==> r.value == tape + Layers(wires, gates, Depth(weights, gates))
  {
    var n := |wires|;
    var depth := if |weights| < |gates| then |weights| else |gates|;
    var t := tape;
    for l := 0 to depth
      invariant forall k :: 0 <= k < l ==> |gates[k]| >= 2 * n && |weights[k]| >= n
      invariant t == tape + Layers(wires, gates, l)
    {
      if |gates[l]| < 2 * n || |weights[l]| < n {
        assert !Fits(weights, gates, n) by {
          assert l < Depth(weights, gates);
        }
        return Err(IndexError);
      }
      assert forall k :: 0 <= k <= l ==> |gates[k]| >= 2 * n && |weights[k]| >= n;
      t := EmitLayer(t, wires, gates[l], l);
      LayersNext(tape, wires, gates, l);
    }
    assert depth == Depth(weights, gates);
    return Ok(t);
  }

  /** random_embedding_circuit(x, weights, wires, gate_sequence), issuing onto `tape`: a
      layer whose row of kinds or weights is too short raises IndexError. */
  method RandomEmbeddingCircuit(tape: seq<Gate>, x: real, weights: seq<seq<real>>, wires: seq<Wire>,
                                gates: seq<seq<Rotation>>)
    returns (r: Result<seq<Gate>>)
    ensures r.Err? <==> !Fits(weights, gates, |wires|)
    ensures r.Err? ==> r.error == IndexError
    ensures r.Ok? ==> r.value == tape + Gates(wires, gates, Depth(weights, gates))
  {
    ghost var opening := OnEachWire(RY, wires, PiOver4);
    var t := EmitOnEachWire(tape, RY, wires, PiOver4);
    var layered := EmitLayers(t, weights, wires, gates);
    if layered.Err? {
      return layered;
    }
    ghost var body := Layers(wires, gates, Depth(weights, gates));
    AppendAssoc(tape, opening, body);
    t := EmitOnEachWire(layered.value, RX, wires, XScalar);
    AppendAssoc(tape, opening + body, OnEachWire(RX, wires, XScalar));
    return Ok(t);
  }

  /** A gate sequence from random_gate_sequence(n, L) with weight rows of n entries never
      makes the circuit raise. */
  lemma ShapedFits(weights: seq<seq<real>>, gates: seq<seq<Rotation>>, n: nat, layers: nat)
    requires Shaped(gates, n, layers) && RowsCover(weights, n)
    ensures Fits(weights, gates, n)
  {
  }

  lemma RowLength(wires: seq<Wire>, kinds: seq<Rotation>, l: nat)
    requires |kinds| >= 2 * |wires|
    ensures |Repeat(|wires|, InputRow(wires, kinds))| == |wires|
    ensures |Repeat(|wires|, WeightRow(wires, kinds, l))| == |wires|
  {
    RepeatLength(|wires|, InputRow(wires, kinds), 1);
    RepeatLength(|wires|, WeightRow(wires, kinds, l), 1);
  }

  /** The chain couples each wire with the next, in order, and the last with none: there
      is no wrap-around. */
  lemma ChainAt(wires: seq<Wire>)
    ensures |Chain(wires)| == ChainLength(|wires|)
    ensures forall i :: 0 <= i < ChainLength(|wires|) ==> Chain(wires)[i] == Gate(CZ, [wires[i], wires[i + 1]], NoAngle)
  {
    var k := ChainLength(|wires|);
    RepeatLength(k, ChainLink(wires), 1);
    forall i | 0 <= i < k
      ensures Chain(wires)[i] == Gate(CZ, [wires[i], wires[i + 1]], NoAngle)
    {
      RepeatAt(k, ChainLink(wires), 1, i, 0);
      assert wires[i .. i + 2] == [wires[i], wires[i + 1]];
    }
  }

  /** A layer issues 2n + 2 max(n - 1, 0) gates: kinds[i](x) on wire i, the chain,
      kinds[n + i](weights[l][i]) on wire i, the chain. */
  lemma LayerLength(wires: seq<Wire>, kinds: seq<Rotation>, l: nat)
    requires |kinds| >= 2 * |wires|
    ensures |Layer(wires, kinds, l)| == 2 * |wires| + 2 * ChainLength(|wires|)
  {
    RowLength(wires, kinds, l);
    RepeatLength(ChainLength(|wires|), ChainLink(wires), 1);
  }

  /** Gate i of a layer is kinds[i](x) on wire i. */
  lemma LayerInputAt(wires: seq<Wire>, kinds: seq<Rotation>, l: nat, i: nat)
    requires |kinds| >= 2 * |wires| && i < |wires|
    ensures |Layer(wires, kinds, l)| == 2 * |wires| + 2 * ChainLength(|wires|)
    ensures Layer(wires, kinds, l)[i] == Rot(kinds[i], wires[i], XScalar)
  {
    var a := Repeat(|wires|, InputRow(wires, kinds));
    LayerLength(wires, kinds, l);
    RowLength(wires, kinds, l);
    RepeatAt(|wires|, InputRow(wires, kinds), 1, i, 0);
    PrefixAt(a, Chain(wires) + Repeat(|wires|, WeightRow(wires, kinds, l)) + Chain(wires), i);
    assert Layer(wires, kinds, l) == a + (Chain(wires) + Repeat(|wires|, WeightRow(wires, kinds, l)) + Chain(wires));
  }

  /** Gate n + max(n - 1, 0) + i of a layer, just past the first chain, is
      kinds[n + i](weights[l][i]) on wire i. */
  lemma LayerWeightAt(wires: seq<Wire>, kinds: seq<Rotation>, l: nat, i: nat)
    requires |kinds| >= 2 * |wires| && i < |wires|
    ensures |Layer(wires, kinds, l)| == 2 * |wires| + 2 * ChainLength(|wires|)
    ensures Layer(wires, kinds, l)[|wires| + ChainLength(|wires|) + i] == Rot(kinds[|wires| + i], wires[i], W2(l, i))
  {
    var head := Repeat(|wires|, InputRow(wires, kinds)) + Chain(wires);
    var b := Repeat(|wires|, WeightRow(wires, kinds, l));
    LayerLength(wires, kinds, l);
    RowLength(wires, kinds, l);
    RepeatLength(ChainLength(|wires|), ChainLink(wires), 1);
    assert |head| == |wires| + ChainLength(|wires|);
    RepeatAt(|wires|, WeightRow(wires, kinds, l), 1, i, 0);
    SuffixAt(head, b, i);
    PrefixAt(head + b, Chain(wires), |head| + i);
  }

  /** The circuit issues 2n + L (2n + 2 max(n - 1, 0)) gates for L = min(len(weights),
      len(gate_sequence)) layers. */
  lemma GateCount(wires: seq<Wire>, gates: seq<seq<Rotation>>, depth: nat)
    requires depth <= |gates| && forall l :: 0 <= l < depth ==> |gates[l]| >= 2 * |wires|
    ensures |Gates(wires, gates, depth)| == 2 * |wires| + depth * (2 * |wires| + 2 * ChainLength(|wires|))
  {
    var n := |wires|;
    var size := 2 * n + 2 * ChainLength(n);
    forall l: nat | l < depth
      ensures |LayerBlock(wires, gates)(l)| == size
    {
      LayerLength(wires, gates[l], l);
    }
    RepeatLength(depth, LayerBlock(wires, gates), size);
    OnEachWireAt(RY, wires, PiOver4);
    OnEachWireAt(RX, wires, XScalar);
  }

  /** The circuit opens with RY(pi / 4) and closes with RX(x) on every wire, in the order
      of `wires`. */
  lemma OpensAndCloses(wires: seq<Wire>, gates: seq<seq<Rotation>>, depth: nat, i: nat)
    requires depth <= |gates| && forall l :: 0 <= l < depth ==> |gates[l]| >= 2 * |wires|
    requires i < |wires|
    ensures |Gates(wires, gates, depth)| >= 2 * |wires|
    ensures Gates(wires, gates, depth)[i] == Rot(RY, wires[i], PiOver4)
    ensures Gates(wires, gates, depth)[|Gates(wires, gates, depth)| - |wires| + i] == Rot(RX, wires[i], XScalar)
  {
    OnEachWireAt(RY, wires, PiOver4);
    OnEachWireAt(RX, wires, XScalar);
  }
}
