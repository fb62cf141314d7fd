/** `embedding_circuit` of risk_function/2d_data/embeddings_circuit.py, for 2-d inputs
    x = [x0, x1]: layer l (one per row of weights) issues RX(x[l mod 2]) on every wire
    and then RY(weights[l][i]) on wire i; the closing RX on every wire takes x0 * x1
    after an even number of layers and x1 after an odd one. */
module RiskEmbedding {
  import opened Circuit
  import opened Errors

  /** The input layer l encodes: x0, x1, x0, ... */
  function LayerInput(l: nat): Angle {
    X(l % 2)
  }

  /** The angle of the closing RX row. */
  function FinalAngle(layers: nat): (a: Angle)
    ensures layers % 2 == 0 ==> a == Prod(X(0), X(1))
    ensures layers % 2 == 1 ==> a == X(1)
  {
    if layers % 2 == 0 then Prod(X(0), X(1)) else X(1)
  }

  function Layer(wires: seq<Wire>): nat --> seq<Gate> {
    (l: nat) => OnEachWire(RX, wires, LayerInput(l)) + Repeat(|wires|, RowOnWires(RY, wires, l))
  }

  function Gates(wires: seq<Wire>, layers: nat): seq<Gate> {
    Repeat(layers, Layer(wires)) + OnEachWire(RX, wires, FinalAngle(layers))
  }

  /** The layer loop: layer l reads x[l mod 2] and the row weights[l]. */
  method EmitLayers(tape: seq<Gate>, x: seq<real>, weights: seq<seq<real>>, wires: seq<Wire>)
    returns (r: Result<seq<Gate>>)
    ensures r.Err? <==> (|weights| >= 1 && |x| < 1) || (|weights| >= 2 && |x| < 2) || !RowsCover(weights, |wires|)
    ensures r.Err? ==> r.error == IndexError
    ensures r.Ok? ==> r.value == tape + Repeat(|weights|, Layer(wires))
  {
    var t := tape;
    for l := 0 to |weights|
      invariant t == tape + Repeat(l, Layer(wires))
      invariant forall k :: 0 <= k < l ==> |weights[k]| >= |wires|
      invariant l >= 1 ==> |x| >= 1
      invariant l >= 2 ==> |x| >= 2
    {
      var p := l % 2;
      if p >= |x| {
        return Err(IndexError);
      }
      if |weights[l]| < |wires| {
        return Err(IndexError);
      }
      t := EmitLayer(t, wires, l);
      RepeatNext(tape, l, Layer(wires));
    }
    return Ok(t);
  }

  /** embedding_circuit(x, weights, wires), issuing onto `tape`. Every path reads x[1]
      (the closing angle needs it whatever the parity), so an input with fewer than two
      entries raises IndexError, as does a row with fewer weights than wires. */
  method EmbeddingCircuit(tape: seq<Gate>, x: seq<real>, weights: seq<seq<real>>, wires: seq<Wire>)
    returns (r: Result<seq<Gate>>)
    ensures r.Err? <==> |x| < 2 || !RowsCover(weights, |wires|)
    ensures r.Err? ==> r.error == IndexError
    ensures r.Ok? ==> r.value == tape + Gates(wires, |weights|)
  {
    var layered := EmitLayers(tape, x, weights, wires);
    if layered.Err? {
      return layered;
    }
    var final;
    if |weights| % 2 == 0 {
      if |x| < 2 {
        return Err(IndexError);
      }
      final := Prod(X(0), X(1));
    } else {
      if |x| < 2 {
        return Err(IndexError);
      }
      final := X(1);
    }
    var t := EmitOnEachWire(layered.value, RX, wires, final);
    AppendAssoc(tape, Repeat(|weights|, Layer(wires)), OnEachWire(RX, wires, FinalAngle(|weights|)));
    return Ok(t);
  }

  /** The two inner loops of layer l, once x[l mod 2] and the row weights[l] are known
      to exist. */
  method EmitLayer(tape: seq<Gate>, wires: seq<Wire>, l: nat) returns (t: seq<Gate>)
    ensures t == tape + Layer(wires)(l)
  {
    t := EmitOnEachWire(tape, RX, wires, X(l % 2));
    t := EmitRowOnWires(t, RY, wires, l);
    AppendAssoc(tape, OnEachWire(RX, wires, LayerInput(l)), Repeat(|wires|, RowOnWires(RY, wires, l)));
  }

  lemma LayerAt(wires: seq<Wire>, l: nat, i: nat)
    requires i < |wires|
    ensures |Layer(wires)(l)| == 2 * |wires|
    ensures Layer(wires)(l)[i] == Rot(RX, wires[i], X(l % 2))
    ensures Layer(wires)(l)[|wires| + i] == Rot(RY, wires[i], W2(l, i))
  {
    OnEachWireAt(RX, wires, LayerInput(l));
    RowOnWiresAt(RY, wires, l);
  }

  lemma LayersLength(wires: seq<Wire>, layers: nat)
    ensures |Repeat(layers, Layer(wires))| == layers * (2 * |wires|)
    ensures forall l: nat :: l < layers ==> |Layer(wires)(l)| == 2 * |wires|
  {
    forall l: nat | l < layers
      ensures |Layer(wires)(l)| == 2 * |wires|
    {
      OnEachWireAt(RX, wires, LayerInput(l));
      RowOnWiresAt(RY, wires, l);
    }
    RepeatLength(layers, Layer(wires), 2 * |wires|);
  }

  /** The circuit issues 2nL + n gates. */
  lemma GateCount(wires: seq<Wire>, layers: nat)
    ensures |Gates(wires, layers)| == 2 * |wires| * layers + |wires|
  {
    LayersLength(wires, layers);
    OnEachWireLength(RX, wires, FinalAngle(layers));
    assert layers * (2 * |wires|) == 2 * |wires| * layers;
  }

  /** In layer l, gate i is RX(x[l mod 2]) on wire i and gate n + i is RY(weights[l][i])
      on wire i. */
  lemma GatesAt(wires: seq<Wire>, layers: nat, l: nat, i: nat)
    requires l < layers && i < |wires|
    ensures l * (2 * |wires|) + |wires| + i < |Gates(wires, layers)|
    ensures Gates(wires, layers)[l * (2 * |wires|) + i] == Rot(RX, wires[i], X(l % 2))
    ensures Gates(wires, layers)[l * (2 * |wires|) + |wires| + i] == Rot(RY, wires[i], W2(l, i))
  {
    var n := |wires|;
    LayersLength(wires, layers);
    LayerAt(wires, l, i);
    RepeatAt(layers, Layer(wires), 2 * n, l, i);
    RepeatAt(layers, Layer(wires), 2 * n, l, n + i);
  }

  /** The last n gates are RX(x0 * x1) after an even number of layers and RX(x1) after an
      odd one. */
  lemma FinalAt(wires: seq<Wire>, layers: nat, i: nat)
    requires i < |wires|
    ensures 2 * |wires| * layers + i < |Gates(wires, layers)|
    ensures layers % 2 == 0 ==> Gates(wires, layers)[2 * |wires| * layers + i] == Rot(RX, wires[i], Prod(X(0), X(1)))
    ensures layers % 2 == 1 ==> Gates(wires, layers)[2 * |wires| * layers + i] == Rot(RX, wires[i], X(1))
  {
    var body := Repeat(layers, Layer(wires));
    var final := OnEachWire(RX, wires, FinalAngle(layers));
    LayersLength(wires, layers);
    assert |body| == 2 * |wires| * layers;
    OnEachWireLength(RX, wires, FinalAngle(layers));
    OnEachWireAt(RX, wires, FinalAngle(layers));
    SuffixAt(body, final, i);
  }
}
