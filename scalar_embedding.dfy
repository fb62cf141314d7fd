/** `embedding_circuit` of overlap_vs_HS_cost/embeddings_circuit.py: for every row of
    weights (one row per layer), the scalar input x as RX on every wire, then the row's
    weights as RY, wire by wire; after the layers x as RX on every wire once more. */
module ScalarEmbedding {
  import opened Circuit
  import opened Errors

  /** Layer l: RX(x) on every wire, then RY(weights[l][i]) on wire i. */
  function Layer(wires: seq<Wire>): nat --> seq<Gate> {
    (l: nat) => OnEachWire(RX, wires, XScalar) + Repeat(|wires|, RowOnWires(RY, wires, l))
  }

  /** What embedding_circuit issues for `layers` rows of weights. */
  function Gates(wires: seq<Wire>, layers: nat): seq<Gate> {
    Repeat(layers, Layer(wires)) + OnEachWire(RX, wires, XScalar)
  }

  /** The two inner loops of layer l, once the row weights[l] is known to cover every
      wire. */
  method EmitLayer(tape: seq<Gate>, wires: seq<Wire>, l: nat) returns (t: seq<Gate>)
    ensures t == tape + Layer(wires)(l)
  {
    t := EmitOnEachWire(tape, RX, wires, XScalar);
    t := EmitRowOnWires(t, RY, wires, l);
    AppendAssoc(tape, OnEachWire(RX, wires, XScalar), Repeat(|wires|, RowOnWires(RY, wires, l)));
  }

  method EmitLayers(tape: seq<Gate>, weights: seq<seq<real>>, wires: seq<Wire>) returns (r: Result<seq<Gate>>)
    ensures r.Err? <==> !RowsCover(weights, |wires|)
    ensures r.Err? ==> r.error == IndexError
    ensures r.Ok? ==> r.value == tape + Repeat(|weights|, Layer(wires))
  {
    var t := tape;
    for l := 0 to |weights|
      invariant t == tape + Repeat(l, Layer(wires))
      invariant forall k :: 0 <= k < l ==> |weights[k]| >= |wires|
    {
      if |weights[l]| < |wires| {
        return Err(IndexError);
      }
      t := EmitLayer(t, wires, l);
      RepeatNext(tape, l, Layer(wires));
    }
    return Ok(t);
  }

  /** embedding_circuit(x, weights, wires), issuing onto `tape`: a row with fewer weights
      than wires raises IndexError. */
  method EmbeddingCircuit(tape: seq<Gate>, x: real, weights: seq<seq<real>>, wires: seq<Wire>)
    returns (r: Result<seq<Gate>>)
    ensures r.Err? <==> !RowsCover(weights, |wires|)
    ensures r.Err? ==> r.error == IndexError
    ensures r.Ok? ==> r.value == tape + Gates(wires, |weights|)
  {
    var layered := EmitLayers(tape, weights, wires);
    if layered.Err? {
      return layered;
    }
    var t := EmitOnEachWire(layered.value, RX, wires, XScalar);
    AppendAssoc(tape, Repeat(|weights|, Layer(wires)), OnEachWire(RX, wires, XScalar));
    return Ok(t);
  }

  lemma LayerAt(wires: seq<Wire>, l: nat, i: nat)
    requires i < |wires|
    ensures |Layer(wires)(l)| == 2 * |wires|
    ensures Layer(wires)(l)[i] == Rot(RX, wires[i], XScalar)
    ensures Layer(wires)(l)[|wires| + i] == Rot(RY, wires[i], W2(l, i))
  {
    OnEachWireAt(RX, wires, XScalar);
    RowOnWiresAt(RY, wires, l);
  }

  lemma LayerLength(wires: seq<Wire>, l: nat)
    ensures |Layer(wires)(l)| == 2 * |wires|
  {
    OnEachWireAt(RX, wires, XScalar);
    RowOnWiresAt(RY, wires, l);
  }

  lemma LayersLength(wires: seq<Wire>, layers: nat)
    ensures |Repeat(layers, Layer(wires))| == layers * (2 * |wires|)
    ensures forall l: nat :: l < layers ==> |Layer(wires)(l)| == 2 * |wires|
  {
    forall l: nat | l < layers
      ensures |Layer(wires)(l)| == 2 * |wires|
    {
      LayerLength(wires, l);
    }
    RepeatLength(layers, Layer(wires), 2 * |wires|);
  }

  /** The circuit issues 2nL + n gates. */
  lemma GateCount(wires: seq<Wire>, layers: nat)
    ensures |Gates(wires, layers)| == 2 * |wires| * layers + |wires|
  {
    LayersLength(wires, layers);
    OnEachWireAt(RX, wires, XScalar);
    assert layers * (2 * |wires|) == 2 * |wires| * layers;
  }

  /** In layer l, gate i is RX(x) on wire i and gate n + i is RY(weights[l][i]) on
      wire i. */
  lemma GatesAt(wires: seq<Wire>, layers: nat, l: nat, i: nat)
    requires l < layers && i < |wires|
    ensures l * (2 * |wires|) + |wires| + i < |Gates(wires, layers)|
    ensures Gates(wires, layers)[l * (2 * |wires|) + i] == Rot(RX, wires[i], XScalar)
    ensures Gates(wires, layers)[l * (2 * |wires|) + |wires| + i] == Rot(RY, wires[i], W2(l, i))
  {
    var n := |wires|;
    LayersLength(wires, layers);
    LayerAt(wires, l, i);
    RepeatAt(layers, Layer(wires), 2 * n, l, i);
    RepeatAt(layers, Layer(wires), 2 * n, l, n + i);
  }

  /** The last n gates are RX(x), wire by wire. */
  lemma FinalAt(wires: seq<Wire>, layers: nat, i: nat)
    requires i < |wires|
    ensures 2 * |wires| * layers + i < |Gates(wires, layers)|
    ensures Gates(wires, layers)[2 * |wires| * layers + i] == Rot(RX, wires[i], XScalar)
  {
    LayersLength(wires, layers);
    OnEachWireAt(RX, wires, XScalar);
    assert layers * (2 * |wires|) == 2 * |wires| * layers;
  }
}

/** `embedding_circuit` of Fourier_analysis/1d-QAOA-Fourier/embeddings_circuit.py: the
    same code as the one of overlap_vs_HS_cost, line for line. */
module FourierEmbedding {
  import opened Circuit
  import opened Errors
  import ScalarEmbedding

  method EmbeddingCircuit(tape: seq<Gate>, x: real, weights: seq<seq<real>>, wires: seq<Wire>)
    returns (r: Result<seq<Gate>>)
    ensures r.Err? <==> !RowsCover(weights, |wires|)
    ensures r.Err? ==> r.error == IndexError
    ensures r.Ok? ==> r.value == tape + ScalarEmbedding.Gates(wires, |weights|)
  {
    r := ScalarEmbedding.EmbeddingCircuit(tape, x, weights, wires);
  }
}
