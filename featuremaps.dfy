/** The chain-coupling feature maps of Simulation_of_Variational_Circuits/featuremaps.py:
    `qaoa`, `HVA_XXZ`, the coupler `_entanglerZ` they share, and the initial-weight
    generator `pars_qaoa`. Each feature map validates its input and weight vector,
    then issues its gates onto the tape of the qnode it runs in. */
module FeatureMaps {
  import opened Circuit
  import opened Errors

  /** The weights one layer of the chain maps consumes. */
  function ChainLayerWeights(n: nat): nat {
    if n == 1 then 1 else if n == 2 then 3 else 2 * n
  }

  /** The weight count `qaoa`, `shallow_circuit` and `HVA_XXZ` demand, for n wires
      and the given number of layers: one slice per layer. */
  function ChainWeightCount(n: nat, layers: nat): nat {
    layers * ChainLayerWeights(n)
  }

  /** A ZZ coupling of wires w1 and w2 by angle 2a: `_entanglerZ(a, w1, w2)`. */
  function EntanglerZ(a: Angle, w1: Wire, w2: Wire): seq<Gate> {
    [Gate(CNOT, [w2, w1], NoAngle), Rot(RZ, w1, Two(a)), Gate(CNOT, [w2, w1], NoAngle)]
  }

  /** The coupler reads the weights of its angle once and nothing else, and it touches
      only its two wires: a CNOT from w2 to w1 on both sides of one RZ on w1. */
  lemma EntanglerZUses(a: Angle, w1: Wire, w2: Wire, i: int)
    ensures Uses(EntanglerZ(a, w1, w2), i) == AngleUses(a, i)
    ensures forall g :: g in EntanglerZ(a, w1, w2) ==> g.wires == [w2, w1] || g.wires == [w1]
  {
    var e := EntanglerZ(a, w1, w2);
    assert e == [e[0]] + [e[1]] + [e[2]];
    UsesConcat([e[0]] + [e[1]], [e[2]], i);
    UsesConcat([e[0]], [e[1]], i);
    UsesSingle(e[0], i);
    UsesSingle(e[1], i);
    UsesSingle(e[2], i);
  }

  /** Input i of qaoa's encoding block: x[i] as RX (circuit_ID 1) or RY (circuit_ID 2)
      on a data wire -- nothing for any other ID -- and a Hadamard on the others. */
  function QaoaEncodeWire(wires: seq<Wire>, d: nat, id: int): nat --> seq<Gate> {
    (i: nat) requires i < |wires| =>
      if i < d then
        (if id == 1 then [Rot(RX, wires[i], X(i))]
         else if id == 2 then [Rot(RY, wires[i], X(i))]
         else [])
      else [Hadamard(wires[i])]
  }

  function QaoaEncoding(wires: seq<Wire>, d: nat, id: int): seq<Gate> {
    Repeat(|wires|, QaoaEncodeWire(wires, d, id))
  }

  /** Local field i: weights[base + i] as RY (ID 1) or RX (ID 2) on wire i. */
  function LocalField(wires: seq<Wire>, base: nat, id: int): nat --> seq<Gate> {
    (i: nat) requires i < |wires| =>
      if id == 1 then [Rot(RY, wires[i], W(base + i))]
      else if id == 2 then [Rot(RX, wires[i], W(base + i))]
      else []
  }

  /** Coupler i of a layer with three or more wires: wire i to wire i + 1, the last
      wire back to wire 0. */
  function Coupler(wires: seq<Wire>, base: nat): nat --> seq<Gate> {
    (i: nat) requires i < |wires| =>
      if i < |wires| - 1 then EntanglerZ(W(base + i), wires[i], wires[i + 1])
      else EntanglerZ(W(base + i), wires[i], wires[0])
  }

  /** The single-wire layer: weights[l] as RY (ID 1) or RX (ID 2). */
  function SingleField(wires: seq<Wire>, id: int, l: nat): seq<Gate>
    requires |wires| == 1
  {
    if id == 1 then [Rot(RY, wires[0], W(l))]
    else if id == 2 then [Rot(RX, wires[0], W(l))]
    else []
  }

  /** The two-wire layer: one coupler by weights[3l + 2], then the local fields 3l, 3l + 1. */
  function PairBody(wires: seq<Wire>, id: int, l: nat): seq<Gate>
    requires |wires| == 2
  {
    EntanglerZ(W(l * 3 + 2), wires[0], wires[1]) + Repeat(2, LocalField(wires, l * 3, id))
  }

  /** The ring layer of three or more wires: couplers by weights 2nl .. 2nl + n - 1, then
      local fields by weights 2nl + n .. 2nl + 2n - 1. */
  function RingBody(wires: seq<Wire>, id: int, l: nat): seq<Gate> {
    var n := |wires|;
    Repeat(n, Coupler(wires, l * 2 * n)) + Repeat(n, LocalField(wires, l * 2 * n + n, id))
  }

  /** What one layer of qaoa issues after its encoding block. */
  function QaoaBody(wires: seq<Wire>, id: int, l: nat): seq<Gate> {
    if |wires| == 1 then SingleField(wires, id, l)
    else if |wires| == 2 then PairBody(wires, id, l)
    else RingBody(wires, id, l)
  }

  function QaoaLayer(wires: seq<Wire>, d: nat, id: int): nat --> seq<Gate> {
    (l: nat) => QaoaEncoding(wires, d, id) + QaoaBody(wires, id, l)
  }

  /** The whole qaoa circuit for a validated input of d features: the layers, then the
      encoding block once more. */
  function QaoaCircuit(wires: seq<Wire>, d: nat, layers: nat, id: int): seq<Gate> {
    Repeat(layers, QaoaLayer(wires, d, id)) + QaoaEncoding(wires, d, id)
  }

  /** The weight count the chain maps compute before validating, as their if-chain does. */
  method ChainNeeded(n: nat, nLayers: nat) returns (needed: nat)
    ensures needed == ChainWeightCount(n, nLayers)
  {
    ChainCount(n, nLayers);
    if n == 1 {
      needed := nLayers;
    } else if n == 2 {
      needed := 3 * nLayers;
    } else {
      needed := 2 * n * nLayers;
    }
  }

  /** The encoding loop of qaoa (and, with circuit_ID 1, of HVA_XXZ). */
  method EmitQaoaEncoding(tape: seq<Gate>, wires: seq<Wire>, d: nat, circuitId: int) returns (t: seq<Gate>)
    ensures t == tape + QaoaEncoding(wires, d, circuitId)
  {
    t := tape;
    for i := 0 to |wires|
      invariant t == tape + Repeat(i, QaoaEncodeWire(wires, d, circuitId))
    {
      ghost var before := t;
      if i < d {
        if circuitId == 1 {
          t := t + [Rot(RX, wires[i], X(i))];
        } else if circuitId == 2 {
          t := t + [Rot(RY, wires[i], X(i))];
        }
      } else {
        t := t + [Hadamard(wires[i])];
      }
      assert t == before + QaoaEncodeWire(wires, d, circuitId)(i);
      RepeatNext(tape, i, QaoaEncodeWire(wires, d, circuitId));
    }
  }

  /** The local-field loop of a layer, reading weights[base + i] for wire i. */
  method EmitLocalFields(tape: seq<Gate>, wires: seq<Wire>, base: nat, circuitId: int) returns (t: seq<Gate>)
    ensures t == tape + Repeat(|wires|, LocalField(wires, base, circuitId))
  {
    t := tape;
    for i := 0 to |wires|
      invariant t == tape + Repeat(i, LocalField(wires, base, circuitId))
    {
      ghost var before := t;
      if circuitId == 1 {
        t := t + [Rot(RY, wires[i], W(base + i))];
      } else if circuitId == 2 {
        t := t + [Rot(RX, wires[i], W(base + i))];
      }
      assert t == before + LocalField(wires, base, circuitId)(i);
      RepeatNext(tape, i, LocalField(wires, base, circuitId));
    }
  }

  lemma CouplerAt(wires: seq<Wire>, base: nat, i: nat)
    requires i < |wires|
    ensures i < |wires| - 1 ==> Coupler(wires, base)(i) == EntanglerZ(W(base + i), wires[i], wires[i + 1])
    ensures i == |wires| - 1 ==> Coupler(wires, base)(i) == EntanglerZ(W(base + i), wires[i], wires[0])
  {
  }

  /** The coupling loop of a layer with three or more wires, periodic at the end. */
  method EmitCouplers(tape: seq<Gate>, wires: seq<Wire>, base: nat) returns (t: seq<Gate>)
    ensures t == tape + Repeat(|wires|, Coupler(wires, base))
  {
    t := tape;
    for i := 0 to |wires|
      invariant t == tape + Repeat(i, Coupler(wires, base))
    {
      ghost var before := t;
      CouplerAt(wires, base, i);
      if i < |wires| - 1 {
        t := t + EntanglerZ(W(base + i), wires[i], wires[i + 1]);
      } else {
        t := t + EntanglerZ(W(base + i), wires[i], wires[0]);
      }
      RepeatNext(tape, i, Coupler(wires, base));
    }
  }

  /** What layer l of qaoa issues after its encoding block. */
  method EmitQaoaBody(tape: seq<Gate>, wires: seq<Wire>, circuitId: int, l: nat) returns (t: seq<Gate>)
    ensures t == tape + QaoaBody(wires, circuitId, l)
  {
    var n := |wires|;
    if n == 1 {
      t := tape;
      if circuitId == 1 {
        t := t + [Rot(RY, wires[0], W(l))];
      } else if circuitId == 2 {
        t := t + [Rot(RX, wires[0], W(l))];
      }
    } else if n == 2 {
      t := EmitPairBody(tape, wires, circuitId, l);
    } else {
      t := EmitRingBody(tape, wires, circuitId, l);
    }
  }

  method EmitPairBody(tape: seq<Gate>, wires: seq<Wire>, circuitId: int, l: nat) returns (t: seq<Gate>)
    requires |wires| == 2
    ensures t == tape + PairBody(wires, circuitId, l)
  {
    var coupling := EntanglerZ(W(l * 3 + 2), wires[0], wires[1]);
    t := EmitLocalFields(tape + coupling, wires, l * 3, circuitId);
    AppendAssoc(tape, coupling, Repeat(2, LocalField(wires, l * 3, circuitId)));
  }

  method EmitRingBody(tape: seq<Gate>, wires: seq<Wire>, circuitId: int, l: nat) returns (t: seq<Gate>)
    ensures t == tape + RingBody(wires, circuitId, l)
  {
    var n := |wires|;
    t := EmitCouplers(tape, wires, l * 2 * n);
    t := EmitLocalFields(t, wires, l * 2 * n + n, circuitId);
    AppendAssoc(tape, Repeat(n, Coupler(wires, l * 2 * n)), Repeat(n, LocalField(wires, l * 2 * n + n, circuitId)));
  }

  /** The layer loop of qaoa (and, with circuit_ID 1, of HVA_XXZ). */
  method EmitQaoaLayers(tape: seq<Gate>, wires: seq<Wire>, d: nat, nLayers: nat, circuitId: int)
    returns (t: seq<Gate>)
    ensures t == tape + Repeat(nLayers, QaoaLayer(wires, d, circuitId))
  {
    t := tape;
    for l := 0 to nLayers
      invariant t == tape + Repeat(l, QaoaLayer(wires, d, circuitId))
    {
      ghost var layers := Repeat(l, QaoaLayer(wires, d, circuitId));
      t := EmitQaoaEncoding(t, wires, d, circuitId);
      t := EmitQaoaBody(t, wires, circuitId, l);
      AppendAssoc(tape + layers, QaoaEncoding(wires, d, circuitId), QaoaBody(wires, circuitId, l));
      RepeatNext(tape, l, QaoaLayer(wires, d, circuitId));
    }
  }

  /** qaoa(weights, x, wires, n_layers, circuit_ID), issuing onto `tape`. */
  method Qaoa(tape: seq<Gate>, weights: seq<real>, x: seq<real>, wires: seq<Wire>, nLayers: nat, circuitId: int)
    returns (r: Result<seq<Gate>>)
    ensures |x| > |wires| ==> r == Err(ValueError(TooManyFeatures(|wires|, |x|)))
    ensures |x| <= |wires| && |weights| != ChainWeightCount(|wires|, nLayers) ==>
      r == Err(ValueError(WrongWeightCount(ChainWeightCount(|wires|, nLayers), |weights|)))
    ensures |x| <= |wires| && |weights| == ChainWeightCount(|wires|, nLayers) ==>
      r == Ok(tape + QaoaCircuit(wires, |x|, nLayers, circuitId))
  {
    var needed := ChainNeeded(|wires|, nLayers);
    if |x| > |wires| {
      return Err(ValueError(TooManyFeatures(|wires|, |x|)));
    }
    if |weights| != needed {
      return Err(ValueError(WrongWeightCount(needed, |weights|)));
    }
    var t := EmitQaoaLayers(tape, wires, |x|, nLayers, circuitId);
    t := EmitQaoaEncoding(t, wires, |x|, circuitId);
    AppendAssoc(tape, Repeat(nLayers, QaoaLayer(wires, |x|, circuitId)), QaoaEncoding(wires, |x|, circuitId));
    return Ok(t);
  }

  /** HVA_XXZ(weights, x, wires, n_layers). Its loops are qaoa's with the circuit_ID 1
      branches taken throughout: RX encoding and RY local fields. */
  method HvaXxz(tape: seq<Gate>, weights: seq<real>, x: seq<real>, wires: seq<Wire>, nLayers: nat)
    returns (r: Result<seq<Gate>>)
    ensures |x| > |wires| ==> r == Err(ValueError(TooManyFeatures(|wires|, |x|)))
    ensures |x| <= |wires| && |weights| != ChainWeightCount(|wires|, nLayers) ==>
      r == Err(ValueError(WrongWeightCount(ChainWeightCount(|wires|, nLayers), |weights|)))
    ensures |x| <= |wires| && |weights| == ChainWeightCount(|wires|, nLayers) ==>
      r == Ok(tape + QaoaCircuit(wires, |x|, nLayers, 1))
  {
    var needed := ChainNeeded(|wires|, nLayers);
    if |x| > |wires| {
      return Err(ValueError(TooManyFeatures(|wires|, |x|)));
    }
    if |weights| != needed {
      return Err(ValueError(WrongWeightCount(needed, |weights|)));
    }
    var t := EmitQaoaLayers(tape, wires, |x|, nLayers, 1);
    t := EmitQaoaEncoding(t, wires, |x|, 1);
    AppendAssoc(tape, Repeat(nLayers, QaoaLayer(wires, |x|, 1)), QaoaEncoding(wires, |x|, 1));
    return Ok(t);
  }

  /** The demand is the if-chain the chain maps write out: n_layers on one wire, 3 per
      layer on two, 2n per layer otherwise. */
  lemma ChainCount(n: nat, layers: nat)
    ensures ChainWeightCount(n, layers) == if n == 1 then layers else if n == 2 then 3 * layers else 2 * n * layers
  {
    if n != 1 && n != 2 {
      assert layers * (2 * n) == 2 * n * layers;
    }
  }

  /** The encoding block reads no trainable weight. */
  lemma QaoaEncodingUsesNone(wires: seq<Wire>, d: nat, id: int, i: int)
    ensures Uses(QaoaEncoding(wires, d, id), i) == 0
  {
    var block := QaoaEncodeWire(wires, d, id);
    forall j | 0 <= j < |wires|
      ensures Uses(block(j), i) == Once(Offset(0, j, 0), Offset(0, j + 1, 0), i)
    {
      if block(j) != [] {
        UsesSingle(block(j)[0], i);
      }
    }
    RepeatUses(|wires|, block, 0, 0, i);
  }

  /** The local fields read weights base .. base + n - 1 once each with circuit_ID 1 or
      2, and no weight with any other ID. */
  lemma LocalFieldsUses(wires: seq<Wire>, base: nat, id: int, i: int)
    ensures Uses(Repeat(|wires|, LocalField(wires, base, id)), i) ==
      if id == 1 || id == 2 then Once(base, base + |wires|, i) else 0
  {
    var block := LocalField(wires, base, id);
    if id == 1 || id == 2 {
      forall j | 0 <= j < |wires|
        ensures Uses(block(j), i) == Once(Offset(base, j, 1), Offset(base, j + 1, 1), i)
      {
        UsesSingle(block(j)[0], i);
      }
      RepeatUses(|wires|, block, base, 1, i);
    } else {
      forall j | 0 <= j < |wires|
        ensures Uses(block(j), i) == Once(Offset(base, j, 0), Offset(base, j + 1, 0), i)
      {
      }
      RepeatUses(|wires|, block, base, 0, i);
    }
  }

  /** The couplers of a ring layer read weights base .. base + n - 1 once each. */
  lemma CouplersUses(wires: seq<Wire>, base: nat, i: int)
    ensures Uses(Repeat(|wires|, Coupler(wires, base)), i) == Once(base, base + |wires|, i)
  {
    var block := Coupler(wires, base);
    forall j | 0 <= j < |wires|
      ensures Uses(block(j), i) == Once(Offset(base, j, 1), Offset(base, j + 1, 1), i)
    {
      if j < |wires| - 1 {
        EntanglerZUses(W(base + j), wires[j], wires[j + 1], i);
      } else {
        EntanglerZUses(W(base + j), wires[j], wires[0], i);
      }
    }
    RepeatUses(|wires|, block, base, 1, i);
  }

  lemma SingleFieldUses(wires: seq<Wire>, id: int, l: nat, i: int)
    requires |wires| == 1
    ensures Uses(SingleField(wires, id, l), i) == if id == 1 || id == 2 then Once(l, l + 1, i) else 0
  {
    var body := SingleField(wires, id, l);
    if body != [] {
      UsesSingle(body[0], i);
    }
  }

  lemma PairBodyUses(wires: seq<Wire>, id: int, l: nat, i: int)
    requires |wires| == 2
    ensures Uses(PairBody(wires, id, l), i) ==
      if id == 1 || id == 2 then Once(l * 3, l * 3 + 3, i) else Once(l * 3 + 2, l * 3 + 3, i)
  {
    var c := EntanglerZ(W(l * 3 + 2), wires[0], wires[1]);
    var f := Repeat(2, LocalField(wires, l * 3, id));
    EntanglerZUses(W(l * 3 + 2), wires[0], wires[1], i);
    LocalFieldsUses(wires, l * 3, id, i);
    UsesConcat(c, f, i);
  }

  lemma RingBodyUses(wires: seq<Wire>, id: int, l: nat, i: int)
    ensures Uses(RingBody(wires, id, l), i) ==
      var base := l * 2 * |wires|;
      if id == 1 || id == 2 then Once(base, base + 2 * |wires|, i) else Once(base, base + |wires|, i)
  {
    var n := |wires|;
    var c := Repeat(n, Coupler(wires, l * 2 * n));
    var f := Repeat(n, LocalField(wires, l * 2 * n + n, id));
    CouplersUses(wires, l * 2 * n, i);
    LocalFieldsUses(wires, l * 2 * n + n, id, i);
    UsesConcat(c, f, i);
  }

  /** What layer l reads of weight i: at most once, and only inside the layer's own
      slice of the weight vector; with circuit_ID 1 or 2, every weight of the slice once. */
  lemma QaoaLayerUses(wires: seq<Wire>, d: nat, id: int, l: nat, i: int)
    ensures Uses(QaoaLayer(wires, d, id)(l), i) <=
      Once(l * ChainLayerWeights(|wires|), l * ChainLayerWeights(|wires|) + ChainLayerWeights(|wires|), i)
    ensures id == 1 || id == 2 ==>
      Uses(QaoaLayer(wires, d, id)(l), i) ==
      Once(l * ChainLayerWeights(|wires|), l * ChainLayerWeights(|wires|) + ChainLayerWeights(|wires|), i)
  {
    var n := |wires|;
    if n != 1 && n != 2 {
      var size := ChainLayerWeights(n);
      assert size == 2 * n;
      assert l * size == l * 2 * n;
    }
    QaoaEncodingUsesNone(wires, d, id, i);
    UsesConcat(QaoaEncoding(wires, d, id), QaoaBody(wires, id, l), i);
    if n == 1 {
      SingleFieldUses(wires, id, l, i);
    } else if n == 2 {
      PairBodyUses(wires, id, l, i);
    } else {
      RingBodyUses(wires, id, l, i);
    }
  }

  /** qaoa with circuit_ID 1 or 2 reads every weight it demands exactly once, and no
      other: none is left unused and no two gates share one. */
  lemma QaoaReadsEachWeightOnce(wires: seq<Wire>, d: nat, layers: nat, id: int, i: int)
    requires id == 1 || id == 2
    ensures Uses(QaoaCircuit(wires, d, layers, id), i) == Once(0, ChainWeightCount(|wires|, layers), i)
  {
    var size := ChainLayerWeights(|wires|);
    var block := QaoaLayer(wires, d, id);
    forall l | 0 <= l < layers
      ensures Uses(block(l), i) == Once(Offset(0, l, size), Offset(0, l + 1, size), i)
    {
      QaoaLayerUses(wires, d, id, l, i);
      OffsetStep(0, l, size);
    }
    RepeatUses(layers, block, 0, size, i);
    QaoaEncodingUsesNone(wires, d, id, i);
    UsesConcat(Repeat(layers, block), QaoaEncoding(wires, d, id), i);
    ChainCount(|wires|, layers);
  }

  /** Whatever the circuit_ID, qaoa reads no weight twice and none past the ones it
      demands. */
  lemma QaoaReadsAtMostOnce(wires: seq<Wire>, d: nat, layers: nat, id: int, i: int)
    ensures Uses(QaoaCircuit(wires, d, layers, id), i) <= Once(0, ChainWeightCount(|wires|, layers), i)
  {
    var size := ChainLayerWeights(|wires|);
    var block := QaoaLayer(wires, d, id);
    forall l | 0 <= l < layers
      ensures Uses(block(l), i) <= Once(Offset(0, l, size), Offset(0, l + 1, size), i)
    {
      QaoaLayerUses(wires, d, id, l, i);
      OffsetStep(0, l, size);
    }
    RepeatUsesAtMost(layers, block, 0, size, i);
    QaoaEncodingUsesNone(wires, d, id, i);
    UsesConcat(Repeat(layers, block), QaoaEncoding(wires, d, id), i);
    ChainCount(|wires|, layers);
  }

  /** The wire after wire i on a ring of n wires: (i + 1) mod n. */
  function RingNext(n: nat, i: nat): nat
    requires i < n
  {
    if i + 1 < n then i + 1 else 0
  }

  /** In a layer of three or more wires coupler i joins wire i to wire (i + 1) mod n by
      weight 2nl + i: the chain is closed into a ring. */
  lemma QaoaRingCoupler(wires: seq<Wire>, l: nat, i: nat)
    requires 3 <= |wires| && i < |wires|
    ensures |Repeat(|wires|, Coupler(wires, l * 2 * |wires|))| == |wires| * 3
    ensures Repeat(|wires|, Coupler(wires, l * 2 * |wires|))[i * 3 .. i * 3 + 3] ==
      EntanglerZ(W(l * 2 * |wires| + i), wires[i], wires[RingNext(|wires|, i)])
  {
    var n := |wires|;
    var block := Coupler(wires, l * 2 * n);
    RepeatBlockAt(n, block, 3, i);
    assert block(i) == EntanglerZ(W(l * 2 * n + i), wires[i], wires[RingNext(n, i)]);
  }

  /** With circuit_ID 1 or 2 the encoding block puts x[i] on wire i, as RX for ID 1 and
      RY for ID 2, and a Hadamard on every wire past the data. */
  lemma QaoaEncodingAt(wires: seq<Wire>, d: nat, id: int)
    requires id == 1 || id == 2
    ensures |QaoaEncoding(wires, d, id)| == |wires|
    ensures forall i :: 0 <= i < |wires| ==>
      QaoaEncoding(wires, d, id)[i] ==
        if i < d then Rot(if id == 1 then RX else RY, wires[i], X(i)) else Hadamard(wires[i])
  {
    var block := QaoaEncodeWire(wires, d, id);
    RepeatLength(|wires|, block, 1);
    forall i | 0 <= i < |wires|
      ensures QaoaEncoding(wires, d, id)[i] ==
        if i < d then Rot(if id == 1 then RX else RY, wires[i], X(i)) else Hadamard(wires[i])
    {
      RepeatBlockAt(|wires|, block, 1, i);
      assert QaoaEncoding(wires, d, id)[i .. i + 1] == block(i);
    }
  }

  /** The gates one layer issues with circuit_ID 1 or 2. */
  function QaoaLayerGates(n: nat): nat {
    if n == 1 then 2 else if n == 2 then 7 else 5 * n
  }

  /** The gates the part of a layer after its encoding issues with circuit_ID 1 or 2. */
  lemma QaoaBodyLength(wires: seq<Wire>, id: int, l: nat)
    requires id == 1 || id == 2
    ensures |QaoaBody(wires, id, l)| == QaoaLayerGates(|wires|) - |wires|
  {
    var n := |wires|;
    if n == 2 {
      RepeatLength(n, LocalField(wires, l * 3, id), 1);
    } else if n != 1 {
      RepeatLength(n, Coupler(wires, l * 2 * n), 3);
      RepeatLength(n, LocalField(wires, l * 2 * n + n, id), 1);
    }
  }

  lemma QaoaLayerLength(wires: seq<Wire>, d: nat, id: int, l: nat)
    requires id == 1 || id == 2
    ensures |QaoaLayer(wires, d, id)(l)| == QaoaLayerGates(|wires|)
    ensures QaoaLayer(wires, d, id)(l)[..|wires|] == QaoaEncoding(wires, d, id)
  {
    var enc := QaoaEncoding(wires, d, id);
    var body := QaoaBody(wires, id, l);
    QaoaEncodingAt(wires, d, id);
    QaoaBodyLength(wires, id, l);
    assert (enc + body)[..|enc|] == enc;
  }

  /** With circuit_ID 1 or 2 the circuit has n gates more than its layers: the closing
      encoding block. */
  lemma QaoaGateCount(wires: seq<Wire>, d: nat, layers: nat, id: int)
    requires id == 1 || id == 2
    ensures |QaoaCircuit(wires, d, layers, id)| == layers * QaoaLayerGates(|wires|) + |wires|
  {
    var block := QaoaLayer(wires, d, id);
    forall l | 0 <= l < layers
      ensures |block(l)| == QaoaLayerGates(|wires|)
    {
      QaoaLayerLength(wires, d, id, l);
    }
    RepeatLength(layers, block, QaoaLayerGates(|wires|));
    QaoaEncodingAt(wires, d, id);
  }

  /** pars_qaoa(n_wires, n_layers): 0.001 for every weight qaoa demands. */
  function ParsQaoa(n: nat, layers: nat): (pars: seq<real>)
    ensures |pars| == ChainWeightCount(n, layers)
    ensures forall k :: 0 <= k < |pars| ==> pars[k] == 0.001
  {
    if n == 1 then seq(layers, _ => 0.001)
    else if n == 2 then seq(layers * 3, _ => 0.001)
    else if n == 4 then seq(n * layers * 2, _ => 0.001)
    else seq(layers * n * 2, _ => 0.001)
  }
}
