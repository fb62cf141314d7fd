/** The Ising feature maps of Simulation_of_Variational_Circuits/featuremaps.py,
    `HVA_TFIM_2D_data` and `HVA_TFIM_1D_data`, and their weight generators `pars_HVA` and
    `pars_HVA_TFIM_1D_data`. Both maps act on the four wires 0 .. 3 whatever `wires`
    they are given. A layer is four Hadamards, four ZZ couplers on the plaquette
    (0,1), (2,3), (0,3), (1,2), and four RX gates; `types` chooses which angles are
    data, which are trainable and which weights are shared. */
module HvaTfim {
  import opened Circuit
  import opened Errors
  import opened FeatureMaps

  /** The wires both maps act on: `range(0, 4)`. */
  const Plaquette: seq<Wire> := [0, 1, 2, 3]

  /** The weight count HVA_TFIM_2D_data demands. */
  function Weights2D(types: int, layers: nat): nat {
    if types == 1 then 4 * layers else if types == 2 then 2 * layers else 6 * layers
  }

  /** The weight count HVA_TFIM_1D_data demands. */
  function Weights1D(types: int, layers: nat): nat {
    if types == 1 then 6 * layers else if types == 2 then 2 * layers else 7 * layers
  }

  /** The four couplers of a layer, by the angles a (0,1), b (2,3), c (0,3), e (1,2). */
  function Couplers(a: Angle, b: Angle, c: Angle, e: Angle): seq<Gate> {
    EntanglerZ(a, 0, 1) + EntanglerZ(b, 2, 3) + EntanglerZ(c, 0, 3) + EntanglerZ(e, 1, 2)
  }

  function Hadamards(): seq<Gate> {
    OnEachWire(H, Plaquette, NoAngle)
  }

  /** The couplers of 2D layer l: the two data features on (0,1) and (2,3) for types 1,
      one shared weight for types 2, four weights otherwise. */
  function Couplers2D(types: int, l: nat): seq<Gate> {
    if types == 1 then Couplers(X(0), X(1), W(l * 4), W(l * 4 + 1))
    else if types == 2 then Couplers(W(l * 2), W(l * 2), W(l * 2), W(l * 2))
    else Couplers(W(l * 6), W(l * 6 + 1), W(l * 6 + 2), W(l * 6 + 3))
  }

  /** The RX block closing 2D layer l: x[0] on wire 0, x[1] on wire 2, and trainable
      angles on wires 1 and 3 (one shared weight for types 2). */
  function Fields2D(types: int, l: nat): seq<Gate> {
    var (b1, b3) :=
      if types == 1 then (W(l * 4 + 2), W(l * 4 + 3))
      else if types == 2 then (W(l * 2 + 1), W(l * 2 + 1))
      else (W(l * 6 + 4), W(l * 6 + 5));
    [Rot(RX, 0, X(0)), Rot(RX, 2, X(1)), Rot(RX, 1, b1), Rot(RX, 3, b3)]
  }

  function Layer2D(types: int): nat --> seq<Gate> {
    (l: nat) => Hadamards() + Couplers2D(types, l) + Fields2D(types, l)
  }

  /** What HVA_TFIM_2D_data issues when it raises nothing. */
  function Tfim2D(layers: nat, types: int): seq<Gate> {
    Repeat(layers, Layer2D(types))
  }

  /** The couplers of 1D layer l: the data feature x[0] on (0,1) for types 1, one shared
      weight for types 2, four weights otherwise. */
  function Couplers1D(types: int, l: nat): seq<Gate> {
    if types == 1 then Couplers(X(0), W(l * 6), W(l * 6 + 1), W(l * 6 + 2))
    else if types == 2 then Couplers(W(l * 2), W(l * 2), W(l * 2), W(l * 2))
    else Couplers(W(l * 7), W(l * 7 + 1), W(l * 7 + 2), W(l * 7 + 3))
  }

  /** The RX block closing 1D layer l, as written: x[0] on wire 0 and trainable angles on
      wires 1, 2, 3 -- except that for types other than 1 and 2 the second trainable RX
      goes to wire 1 again, and wire 2 gets none. */
  function Fields1D(types: int, l: nat): seq<Gate> {
    if types == 1 then
      [Rot(RX, 0, X(0)), Rot(RX, 1, W(l * 6 + 3)), Rot(RX, 2, W(l * 6 + 4)), Rot(RX, 3, W(l * 6 + 5))]
    else if types == 2 then
      [Rot(RX, 0, X(0)), Rot(RX, 1, W(l * 2 + 1)), Rot(RX, 2, W(l * 2 + 1)), Rot(RX, 3, W(l * 2 + 1))]
    else
      [Rot(RX, 0, X(0)), Rot(RX, 1, W(l * 7 + 4)), Rot(RX, 1, W(l * 7 + 5)), Rot(RX, 3, W(l * 7 + 6))]
  }

  /** The RX block as the other two types and the transverse field of the model intend
      it: one RX on each of the wires 0, 1, 2, 3. */
  function IntendedFields1D(types: int, l: nat): seq<Gate> {
    if types == 1 || types == 2 then Fields1D(types, l)
    else [Rot(RX, 0, X(0)), Rot(RX, 1, W(l * 7 + 4)), Rot(RX, 2, W(l * 7 + 5)), Rot(RX, 3, W(l * 7 + 6))]
  }

  function Layer1D(types: int): nat --> seq<Gate> {
    (l: nat) => Hadamards() + Couplers1D(types, l) + Fields1D(types, l)
  }

  /** What HVA_TFIM_1D_data issues when it raises nothing. */
  function Tfim1D(layers: nat, types: int): seq<Gate> {
    Repeat(layers, Layer1D(types))
  }

  function IntendedLayer1D(types: int): nat --> seq<Gate> {
    (l: nat) => Hadamards() + Couplers1D(types, l) + IntendedFields1D(types, l)
  }

  function IntendedTfim1D(layers: nat, types: int): seq<Gate> {
    Repeat(layers, IntendedLayer1D(types))
  }

  method EmitHadamards(tape: seq<Gate>) returns (t: seq<Gate>)
    ensures t == tape + Hadamards()
  {
    var block := EachWire(H, Plaquette, NoAngle);
    t := tape;
    for i := 0 to |Plaquette|
      invariant t == tape + Repeat(i, block)
    {
      ghost var before := t;
      t := t + [Hadamard(Plaquette[i])];
      assert t == before + block(i);
      RepeatNext(tape, i, block);
    }
  }

  /** The four `_entanglerZ` calls of a layer. */
  method EmitCouplers(tape: seq<Gate>, a: Angle, b: Angle, c: Angle, e: Angle) returns (t: seq<Gate>)
    ensures t == tape + Couplers(a, b, c, e)
  {
    t := tape + EntanglerZ(a, Plaquette[0], Plaquette[1]);
    t := t + EntanglerZ(b, Plaquette[2], Plaquette[3]);
    t := t + EntanglerZ(c, Plaquette[0], Plaquette[3]);
    t := t + EntanglerZ(e, Plaquette[1], Plaquette[2]);
  }

  /** Layer l of HVA_TFIM_2D_data; reading x[0] and x[1] fails when x is shorter. */
  method EmitLayer2D(tape: seq<Gate>, x: seq<real>, l: nat, types: int) returns (r: Result<seq<Gate>>)
    ensures |x| < 2 ==> r == Err(IndexError)
    ensures |x| >= 2 ==> r == Ok(tape + Layer2D(types)(l))
  {
    var t := EmitHadamards(tape);
    if types == 1 {
      if |x| < 2 {
        return Err(IndexError);
      }
      t := EmitCouplers(t, X(0), X(1), W(l * 4), W(l * 4 + 1));
    } else if types == 2 {
      t := EmitCouplers(t, W(l * 2), W(l * 2), W(l * 2), W(l * 2));
    } else {
      t := EmitCouplers(t, W(l * 6), W(l * 6 + 1), W(l * 6 + 2), W(l * 6 + 3));
    }
    if |x| < 2 {
      return Err(IndexError);
    }
    var fields := [Rot(RX, Plaquette[0], X(0)), Rot(RX, Plaquette[2], X(1))];
    if types == 1 {
      fields := fields + [Rot(RX, Plaquette[1], W(l * 4 + 2)), Rot(RX, Plaquette[3], W(l * 4 + 3))];
    } else if types == 2 {
      fields := fields + [Rot(RX, Plaquette[1], W(l * 2 + 1)), Rot(RX, Plaquette[3], W(l * 2 + 1))];
    } else {
      fields := fields + [Rot(RX, Plaquette[1], W(l * 6 + 4)), Rot(RX, Plaquette[3], W(l * 6 + 5))];
    }
    assert fields == Fields2D(types, l);
    AppendAssoc(tape, Hadamards(), Couplers2D(types, l));
    AppendAssoc(tape, Hadamards() + Couplers2D(types, l), fields);
    return Ok(t + fields);
  }

  /** Layer l of HVA_TFIM_1D_data; reading x[0] fails when x is empty. */
  method EmitLayer1D(tape: seq<Gate>, x: seq<real>, l: nat, types: int) returns (r: Result<seq<Gate>>)
    ensures |x| < 1 ==> r == Err(IndexError)
    ensures |x| >= 1 ==> r == Ok(tape + Layer1D(types)(l))
  {
    var t := EmitHadamards(tape);
    if types == 1 {
      if |x| < 1 {
        return Err(IndexError);
      }
      t := EmitCouplers(t, X(0), W(l * 6), W(l * 6 + 1), W(l * 6 + 2));
    } else if types == 2 {
      t := EmitCouplers(t, W(l * 2), W(l * 2), W(l * 2), W(l * 2));
    } else {
      t := EmitCouplers(t, W(l * 7), W(l * 7 + 1), W(l * 7 + 2), W(l * 7 + 3));
    }
    if |x| < 1 {
      return Err(IndexError);
    }
    var fields := [Rot(RX, Plaquette[0], X(0))];
    if types == 1 {
      fields := fields + [Rot(RX, Plaquette[1], W(l * 6 + 3)), Rot(RX, Plaquette[2], W(l * 6 + 4)), Rot(RX, Plaquette[3], W(l * 6 + 5))];
    } else if types == 2 {
      fields := fields + [Rot(RX, Plaquette[1], W(l * 2 + 1)), Rot(RX, Plaquette[2], W(l * 2 + 1)), Rot(RX, Plaquette[3], W(l * 2 + 1))];
    } else {
      fields := fields + [Rot(RX, Plaquette[1], W(l * 7 + 4)), Rot(RX, Plaquette[1], W(l * 7 + 5)), Rot(RX, Plaquette[3], W(l * 7 + 6))];
    }
    assert fields == Fields1D(types, l);
    AppendAssoc(tape, Hadamards(), Couplers1D(types, l));
    AppendAssoc(tape, Hadamards() + Couplers1D(types, l), fields);
    return Ok(t + fields);
  }

  /** HVA_TFIM_2D_data(weights, x, wires, n_layers, types), issuing onto `tape`. The
      `wires` argument is not a parameter: the map replaces it by the wires 0 .. 3. */
  method HvaTfim2D(tape: seq<Gate>, weights: seq<real>, x: seq<real>, nLayers: nat, types: int)
    returns (r: Result<seq<Gate>>)
    ensures |x| > 4 ==> r == Err(ValueError(TooManyFeatures(4, |x|)))
    ensures |x| <= 4 && |weights| != Weights2D(types, nLayers) ==>
      r == Err(ValueError(WrongWeightCount(Weights2D(types, nLayers), |weights|)))
    ensures |x| <= 4 && |weights| == Weights2D(types, nLayers) && nLayers >= 1 && |x| < 2 ==>
      r == Err(IndexError)
    ensures |x| <= 4 && |weights| == Weights2D(types, nLayers) && (nLayers == 0 || |x| >= 2) ==>
      r == Ok(tape + Tfim2D(nLayers, types))
  {
    var needed: nat;
    if types == 1 {
      needed := 4 * nLayers;
    } else if types == 2 {
      needed := 2 * nLayers;
    } else {
      needed := 6 * nLayers;
    }
    if |x| > |Plaquette| {
      return Err(ValueError(TooManyFeatures(|Plaquette|, |x|)));
    }
    if |weights| != needed {
      return Err(ValueError(WrongWeightCount(needed, |weights|)));
    }
    r := EmitLayers2D(tape, x, nLayers, types);
  }

  /** The layer loop of HVA_TFIM_2D_data. */
  method EmitLayers2D(tape: seq<Gate>, x: seq<real>, nLayers: nat, types: int) returns (r: Result<seq<Gate>>)
    ensures nLayers >= 1 && |x| < 2 ==> r == Err(IndexError)
    ensures nLayers == 0 || |x| >= 2 ==> r == Ok(tape + Tfim2D(nLayers, types))
  {
    var t := tape;
    for l := 0 to nLayers
      invariant t == tape + Repeat(l, Layer2D(types))
      invariant l >= 1 ==> |x| >= 2
    {
      var step := EmitLayer2D(t, x, l, types);
      if step.Err? {
        return Err(step.error);
      }
      t := step.value;
      RepeatNext(tape, l, Layer2D(types));
    }
    return Ok(t);
  }

  /** HVA_TFIM_1D_data(weights, x, wires, n_layers, types), issuing onto `tape`, on the
      wires 0 .. 3. */
  method HvaTfim1D(tape: seq<Gate>, weights: seq<real>, x: seq<real>, nLayers: nat, types: int)
    returns (r: Result<seq<Gate>>)
    ensures |x| > 4 ==> r == Err(ValueError(TooManyFeatures(4, |x|)))
    ensures |x| <= 4 && |weights| != Weights1D(types, nLayers) ==>
      r == Err(ValueError(WrongWeightCount(Weights1D(types, nLayers), |weights|)))
    ensures |x| <= 4 && |weights| == Weights1D(types, nLayers) && nLayers >= 1 && |x| < 1 ==>
      r == Err(IndexError)
    ensures |x| <= 4 && |weights| == Weights1D(types, nLayers) && (nLayers == 0 || |x| >= 1) ==>
      r == Ok(tape + Tfim1D(nLayers, types))
  {
    var needed: nat;
    if types == 1 {
      needed := 6 * nLayers;
    } else if types == 2 {
      needed := 2 * nLayers;
    } else {
      needed := 7 * nLayers;
    }
    if |x| > |Plaquette| {
      return Err(ValueError(TooManyFeatures(|Plaquette|, |x|)));
    }
    if |weights| != needed {
      return Err(ValueError(WrongWeightCount(needed, |weights|)));
    }
    r := EmitLayers1D(tape, x, nLayers, types);
  }

  /** The layer loop of HVA_TFIM_1D_data. */
  method EmitLayers1D(tape: seq<Gate>, x: seq<real>, nLayers: nat, types: int) returns (r: Result<seq<Gate>>)
    ensures nLayers >= 1 && |x| < 1 ==> r == Err(IndexError)
    ensures nLayers == 0 || |x| >= 1 ==> r == Ok(tape + Tfim1D(nLayers, types))
  {
    var t := tape;
    for l := 0 to nLayers
      invariant t == tape + Repeat(l, Layer1D(types))
      invariant l >= 1 ==> |x| >= 1
    {
      var step := EmitLayer1D(t, x, l, types);
      if step.Err? {
        assert |x| < 1 && step.error == IndexError;
        return Err(step.error);
      }
      t := step.value;
      RepeatNext(tape, l, Layer1D(types));
    }
    assert t == tape + Tfim1D(nLayers, types);
    return Ok(t);
  }

  /** pars_HVA(n_layers, types): 0.001 for every weight HVA_TFIM_2D_data demands. */
  function ParsHva(layers: nat, types: int): (pars: seq<real>)
    ensures |pars| == Weights2D(types, layers)
    ensures forall k :: 0 <= k < |pars| ==> pars[k] == 0.001
  {
    if types == 1 then seq(layers * 4, _ => 0.001)
    else if types == 2 then seq(layers * 2, _ => 0.001)
    else seq(layers * 6, _ => 0.001)
  }

  /** pars_HVA_TFIM_1D_data(n_layers, types): 0.001 for every weight HVA_TFIM_1D_data
      demands. */
  function ParsHvaTfim1D(layers: nat, types: int): (pars: seq<real>)
    ensures |pars| == Weights1D(types, layers)
    ensures forall k :: 0 <= k < |pars| ==> pars[k] == 0.001
  {
    if types == 1 then seq(layers * 6, _ => 0.001)
    else if types == 2 then seq(layers * 2, _ => 0.001)
    else seq(layers * 7, _ => 0.001)
  }

  /** The four couplers read what their four angles read. */
  lemma CouplersUses(a: Angle, b: Angle, c: Angle, e: Angle, i: int)
    ensures Uses(Couplers(a, b, c, e), i) == AngleUses(a, i) + AngleUses(b, i) + AngleUses(c, i) + AngleUses(e, i)
  {
    var ab := EntanglerZ(a, 0, 1) + EntanglerZ(b, 2, 3);
    var abc := ab + EntanglerZ(c, 0, 3);
    EntanglerZUses(a, 0, 1, i);
    EntanglerZUses(b, 2, 3, i);
    EntanglerZUses(c, 0, 3, i);
    EntanglerZUses(e, 1, 2, i);
    UsesConcat(EntanglerZ(a, 0, 1), EntanglerZ(b, 2, 3), i);
    UsesConcat(ab, EntanglerZ(c, 0, 3), i);
    UsesConcat(abc, EntanglerZ(e, 1, 2), i);
  }

  /** A layer reads what its couplers and its RX block read. */
  lemma LayerSplitUses(couplers: seq<Gate>, fields: seq<Gate>, i: int)
    ensures Uses(Hadamards() + couplers + fields, i) == Uses(couplers, i) + Uses(fields, i)
  {
    OnEachWireUses(H, Plaquette, NoAngle, i);
    UsesConcat(Hadamards(), couplers, i);
    UsesConcat(Hadamards() + couplers, fields, i);
  }

  /** Layer l of the 2D map reads weights 4l .. 4l + 3 once each for types 1 and
      6l .. 6l + 5 once each for types other than 1 and 2; for types 2 the four couplers
      share weight 2l and the two trainable RX gates share weight 2l + 1. */
  lemma Layer2DUses(types: int, l: nat, i: int)
    ensures Uses(Layer2D(types)(l), i) ==
      if types == 1 then Once(l * 4, l * 4 + 4, i)
      else if types == 2 then (if i == l * 2 then 4 else if i == l * 2 + 1 then 2 else 0)
      else Once(l * 6, l * 6 + 6, i)
  {
    LayerSplitUses(Couplers2D(types, l), Fields2D(types, l), i);
    var f := Fields2D(types, l);
    FourUses(f[0], f[1], f[2], f[3], i);
    if types == 1 {
      CouplersUses(X(0), X(1), W(l * 4), W(l * 4 + 1), i);
    } else if types == 2 {
      CouplersUses(W(l * 2), W(l * 2), W(l * 2), W(l * 2), i);
    } else {
      CouplersUses(W(l * 6), W(l * 6 + 1), W(l * 6 + 2), W(l * 6 + 3), i);
    }
  }

  /** Layer l of the 1D map reads weights 6l .. 6l + 5 once each for types 1 and
      7l .. 7l + 6 once each otherwise; for types 2 the four couplers share weight 2l and
      the three trainable RX gates share weight 2l + 1. */
  lemma Layer1DUses(types: int, l: nat, i: int)
    ensures Uses(Layer1D(types)(l), i) ==
      if types == 1 then Once(l * 6, l * 6 + 6, i)
      else if types == 2 then (if i == l * 2 then 4 else if i == l * 2 + 1 then 3 else 0)
      else Once(l * 7, l * 7 + 7, i)
  {
    LayerSplitUses(Couplers1D(types, l), Fields1D(types, l), i);
    var f := Fields1D(types, l);
    FourUses(f[0], f[1], f[2], f[3], i);
    if types == 1 {
      CouplersUses(X(0), W(l * 6), W(l * 6 + 1), W(l * 6 + 2), i);
    } else if types == 2 {
      CouplersUses(W(l * 2), W(l * 2), W(l * 2), W(l * 2), i);
    } else {
      CouplersUses(W(l * 7), W(l * 7 + 1), W(l * 7 + 2), W(l * 7 + 3), i);
    }
  }

  /** The weights one layer of the 2D map demands. */
  function LayerWeights2D(types: int): nat {
    if types == 1 then 4 else if types == 2 then 2 else 6
  }

  function LayerWeights1D(types: int): nat {
    if types == 1 then 6 else if types == 2 then 2 else 7
  }

  /** With types other than 2, HVA_TFIM_2D_data reads every weight it demands exactly
      once and no other. */
  lemma Tfim2DReadsEachWeightOnce(layers: nat, types: int, i: int)
    requires types != 2
    ensures Uses(Tfim2D(layers, types), i) == Once(0, Weights2D(types, layers), i)
  {
    var size := LayerWeights2D(types);
    forall l | 0 <= l < layers
      ensures Uses(Layer2D(types)(l), i) == Once(Offset(0, l, size), Offset(0, l + 1, size), i)
    {
      Layer2DUses(types, l, i);
      OffsetStep(0, l, size);
    }
    RepeatUses(layers, Layer2D(types), 0, size, i);
  }

  /** With types other than 2, HVA_TFIM_1D_data reads every weight it demands exactly
      once and no other. */
  lemma Tfim1DReadsEachWeightOnce(layers: nat, types: int, i: int)
    requires types != 2
    ensures Uses(Tfim1D(layers, types), i) == Once(0, Weights1D(types, layers), i)
  {
    var size := LayerWeights1D(types);
    forall l | 0 <= l < layers
      ensures Uses(Layer1D(types)(l), i) == Once(Offset(0, l, size), Offset(0, l + 1, size), i)
    {
      Layer1DUses(types, l, i);
      OffsetStep(0, l, size);
    }
    RepeatUses(layers, Layer1D(types), 0, size, i);
  }

  /** With types 2 the 2D map reads the coupling weight 2l of layer l four times and its
      field weight 2l + 1 twice; no other layer reads either. */
  lemma Tfim2DSharedWeights(layers: nat, l: nat)
    requires l < layers
    ensures Uses(Tfim2D(layers, 2), l * 2) == 4
    ensures Uses(Tfim2D(layers, 2), l * 2 + 1) == 2
  {
    forall j | 0 <= j < layers
      ensures Uses(Layer2D(2)(j), l * 2) == if j == l then 4 else 0
      ensures Uses(Layer2D(2)(j), l * 2 + 1) == if j == l then 2 else 0
    {
      Layer2DUses(2, j, l * 2);
      Layer2DUses(2, j, l * 2 + 1);
    }
    RepeatUsesOnly(layers, Layer2D(2), l, l * 2, 4);
    RepeatUsesOnly(layers, Layer2D(2), l, l * 2 + 1, 2);
  }

  /** With types 2 the 1D map reads the coupling weight 2l of layer l four times and its
      field weight 2l + 1 three times; no other layer reads either. */
  lemma Tfim1DSharedWeights(layers: nat, l: nat)
    requires l < layers
    ensures Uses(Tfim1D(layers, 2), l * 2) == 4
    ensures Uses(Tfim1D(layers, 2), l * 2 + 1) == 3
  {
    forall j | 0 <= j < layers
      ensures Uses(Layer1D(2)(j), l * 2) == if j == l then 4 else 0
      ensures Uses(Layer1D(2)(j), l * 2 + 1) == if j == l then 3 else 0
    {
      Layer1DUses(2, j, l * 2);
      Layer1DUses(2, j, l * 2 + 1);
    }
    RepeatUsesOnly(layers, Layer1D(2), l, l * 2, 4);
    RepeatUsesOnly(layers, Layer1D(2), l, l * 2 + 1, 3);
  }

  /** With types 2 neither map reads a weight past the ones it demands. */
  lemma SharedReadsNothingElse(layers: nat, i: int)
    requires i < 0 || i >= 2 * layers
    ensures Uses(Tfim2D(layers, 2), i) == 0
    ensures Uses(Tfim1D(layers, 2), i) == 0
  {
    forall j | 0 <= j < layers
      ensures Uses(Layer2D(2)(j), i) == 0 && Uses(Layer1D(2)(j), i) == 0
    {
      Layer2DUses(2, j, i);
      Layer1DUses(2, j, i);
    }
    RepeatUsesNone(layers, Layer2D(2), i);
    RepeatUsesNone(layers, Layer1D(2), i);
  }

  /** The wires of the four RX gates of a block. */
  function FieldWires(fields: seq<Gate>): seq<seq<Wire>>
    requires |fields| == 4
  {
    [fields[0].wires, fields[1].wires, fields[2].wires, fields[3].wires]
  }

  /** As written, for types other than 1 and 2 the RX block of the 1D map acts on wires
      0, 1, 1, 3: wire 2 gets no transverse field and wire 1 gets two. */
  lemma Fields1DMissesWire2(types: int, l: nat)
    requires types != 1 && types != 2
    ensures FieldWires(Fields1D(types, l)) == [[0], [1], [1], [3]]
    ensures forall g :: g in Fields1D(types, l) ==> g.wires != [2]
  {
  }

  /** The intended RX block acts on wires 0, 1, 2, 3 in turn for every types, as the 1D
      map's types 1 and 2 and the 2D map (in the order 0, 2, 1, 3) do. */
  lemma IntendedFields1DWires(types: int, l: nat)
    ensures FieldWires(IntendedFields1D(types, l)) == [[0], [1], [2], [3]]
    ensures multiset(FieldWires(Fields2D(types, l))) == multiset(FieldWires(IntendedFields1D(types, l)))
  {
    assert FieldWires(Fields2D(types, l)) == [[0], [2], [1], [3]];
  }

  /** The correction moves one gate and changes no angle: the intended 1D map reads the
      same weights as the code. */
  lemma IntendedLayer1DUses(types: int, l: nat, i: int)
    ensures Uses(IntendedLayer1D(types)(l), i) == Uses(Layer1D(types)(l), i)
  {
    LayerSplitUses(Couplers1D(types, l), Fields1D(types, l), i);
    LayerSplitUses(Couplers1D(types, l), IntendedFields1D(types, l), i);
    var f := Fields1D(types, l);
    var g := IntendedFields1D(types, l);
    FourUses(f[0], f[1], f[2], f[3], i);
    FourUses(g[0], g[1], g[2], g[3], i);
  }

  /** Every layer of either map issues 20 gates: 4 Hadamards, 12 for the couplers, 4 RX. */
  lemma LayerLength(types: int, l: nat)
    ensures |Layer2D(types)(l)| == 20
    ensures |Layer1D(types)(l)| == 20
  {
    OnEachWireAt(H, Plaquette, NoAngle);
  }

  lemma GateCount(layers: nat, types: int)
    ensures |Tfim2D(layers, types)| == 20 * layers
    ensures |Tfim1D(layers, types)| == 20 * layers
  {
    forall l | 0 <= l < layers
      ensures |Layer2D(types)(l)| == 20 && |Layer1D(types)(l)| == 20
    {
      LayerLength(types, l);
    }
    RepeatLength(layers, Layer2D(types), 20);
    RepeatLength(layers, Layer1D(types), 20);
  }
}
