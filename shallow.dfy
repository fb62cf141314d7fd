/** `shallow_circuit` of Simulation_of_Variational_Circuits/featuremaps.py: circuits 11,
    12, 18 and 19 of the Sim et al. catalogue, built on the same weight layout as qaoa.
    Circuits 18 and 19 encode by RX and couple by controlled RZ (18) or controlled RX
    (19); circuits 11 and 12 encode by RY and issue no trainable gate on one wire or on
    three or more, and are refused on two wires. */
module ShallowCircuit {
  import opened Circuit
  import opened Errors
  import opened FeatureMaps

  predicate XEncoded(id: int) {
    id == 18 || id == 19
  }

  predicate YEncoded(id: int) {
    id == 11 || id == 12
  }

  /** When shallow_circuit raises its "Wrong circuit_ID" error, provided it runs at least
      one layer: the encoding meets a data wire under an ID other than 11, 12, 18, 19, or
      the two-wire local fields run under an ID other than 18 and 19. */
  predicate IdRejected(n: nat, d: nat, id: int) {
    (d >= 1 && !XEncoded(id) && !YEncoded(id)) || (n == 2 && !XEncoded(id))
  }

  /** The controlled rotation of the coupling loops: CRZ for circuit 18, CRX for 19,
      nothing for any other ID. */
  function Controlled(id: int, a: Angle, control: Wire, target: Wire): seq<Gate> {
    if id == 18 then [Gate(CRZ, [control, target], a)]
    else if id == 19 then [Gate(CRX, [control, target], a)]
    else []
  }

  /** Input i of the per-layer encoding block. An ID the block refuses issues nothing
      here; that case is the error IdRejected describes. */
  function EncodeWire(wires: seq<Wire>, d: nat, id: int): nat --> seq<Gate> {
    (i: nat) requires i < |wires| =>
      if i < d then
        (if XEncoded(id) then [Rot(RX, wires[i], X(i))]
         else if YEncoded(id) then [Rot(RY, wires[i], X(i))]
         else [])
      else [Hadamard(wires[i])]
  }

  /** Input i of the closing encoding block: RX for circuits 18 and 19 and nothing on a
      data wire for any other ID; a Hadamard past the data. */
  function FinalEncodeWire(wires: seq<Wire>, d: nat, id: int): nat --> seq<Gate> {
    (i: nat) requires i < |wires| =>
      if i < d then
        (if XEncoded(id) then [Rot(RX, wires[i], X(i))] else [])
      else [Hadamard(wires[i])]
  }

  /** Local field i: weights[base + i] as RZ on wire i, for circuits 18 and 19 only. */
  function ZField(wires: seq<Wire>, base: nat, id: int): nat --> seq<Gate> {
    (i: nat) requires i < |wires| =>
      if XEncoded(id) then [Rot(RZ, wires[i], W(base + i))] else []
  }

  /** Coupler i of a layer with three or more wires, as written: i = 0 couples the last
      wire to wire 0, 0 < i < n - 1 couples wire i to wire i + 1, and i = n - 1 issues
      nothing. */
  function RingCoupler(wires: seq<Wire>, base: nat, id: int): nat --> seq<Gate> {
    (i: nat) requires i < |wires| =>
      if i == 0 then Controlled(id, W(base + i), wires[|wires| - 1], wires[0])
      else if i < |wires| - 1 then Controlled(id, W(base + i), wires[i], wires[i + 1])
      else []
  }

  /** Where the coupler weights of layer l start, for three or more wires. */
  function CouplerBase(n: nat, l: nat): nat {
    l * 2 * n + n
  }

  /** What layer l issues after its encoding block, with `couplers` as the coupling loop
      of three or more wires. */
  function Body(wires: seq<Wire>, id: int, l: nat, couplers: nat --> seq<Gate>): seq<Gate>
    requires forall j :: 0 <= j < |wires| ==> couplers.requires(j)
  {
    var n := |wires|;
    if n == 1 then
      (if XEncoded(id) then [Rot(RZ, wires[0], W(l))] else [])
    else if n == 2 then
      Repeat(2, ZField(wires, l * 3, id)) + Controlled(id, W(l * 3 + 2), wires[1], wires[0])
    else
      Repeat(n, ZField(wires, l * 2 * n, id)) + Repeat(n, couplers)
  }

  function Encoding(wires: seq<Wire>, d: nat, id: int): seq<Gate> {
    Repeat(|wires|, EncodeWire(wires, d, id))
  }

  function FinalEncoding(wires: seq<Wire>, d: nat, id: int): seq<Gate> {
    Repeat(|wires|, FinalEncodeWire(wires, d, id))
  }

  function Layer(wires: seq<Wire>, d: nat, id: int): nat --> seq<Gate> {
    (l: nat) => Encoding(wires, d, id) + Body(wires, id, l, RingCoupler(wires, CouplerBase(|wires|, l), id))
  }

  /** The input and the weight vector pass the two checks every chain map makes first. */
  predicate Valid(x: seq<real>, weights: seq<real>, wires: seq<Wire>, nLayers: nat) {
    |x| <= |wires| && |weights| == ChainWeightCount(|wires|, nLayers)
  }

  /** The whole circuit shallow_circuit issues when it raises nothing. */
  function Gates(wires: seq<Wire>, d: nat, layers: nat, id: int): seq<Gate> {
    Repeat(layers, Layer(wires, d, id)) + FinalEncoding(wires, d, id)
  }

  method EmitEncoding(tape: seq<Gate>, wires: seq<Wire>, d: nat, circuitId: int)
    returns (r: Result<seq<Gate>>)
    requires d <= |wires|
    ensures d >= 1 && !XEncoded(circuitId) && !YEncoded(circuitId) ==>
      r == Err(ValueError(WrongCircuitId(circuitId)))
    ensures !(d >= 1 && !XEncoded(circuitId) && !YEncoded(circuitId)) ==>
      r == Ok(tape + Encoding(wires, d, circuitId))
  {
    var t := tape;
    for i := 0 to |wires|
      invariant t == tape + Repeat(i, EncodeWire(wires, d, circuitId))
      invariant i >= 1 && d >= 1 ==> XEncoded(circuitId) || YEncoded(circuitId)
    {
      ghost var before := t;
      if i < d {
        if circuitId == 18 || circuitId == 19 {
          t := t + [Rot(RX, wires[i], X(i))];
        } else if circuitId == 11 || circuitId == 12 {
          t := t + [Rot(RY, wires[i], X(i))];
        } else {
          return Err(ValueError(WrongCircuitId(circuitId)));
        }
      } else {
        t := t + [Hadamard(wires[i])];
      }
      assert t == before + EncodeWire(wires, d, circuitId)(i);
      RepeatNext(tape, i, EncodeWire(wires, d, circuitId));
    }
    return Ok(t);
  }

  method EmitFinalEncoding(tape: seq<Gate>, wires: seq<Wire>, d: nat, circuitId: int) returns (t: seq<Gate>)
    ensures t == tape + FinalEncoding(wires, d, circuitId)
  {
    t := tape;
    for i := 0 to |wires|
      invariant t == tape + Repeat(i, FinalEncodeWire(wires, d, circuitId))
    {
      ghost var before := t;
      if i < d {
        if circuitId == 18 || circuitId == 19 {
          t := t + [Rot(RX, wires[i], X(i))];
        }
      } else {
        t := t + [Hadamard(wires[i])];
      }
      assert t == before + FinalEncodeWire(wires, d, circuitId)(i);
      RepeatNext(tape, i, FinalEncodeWire(wires, d, circuitId));
    }
  }

  method EmitZFields(tape: seq<Gate>, wires: seq<Wire>, base: nat, circuitId: int) returns (t: seq<Gate>)
    ensures t == tape + Repeat(|wires|, ZField(wires, base, circuitId))
  {
    t := tape;
    for i := 0 to |wires|
      invariant t == tape + Repeat(i, ZField(wires, base, circuitId))
    {
      ghost var before := t;
      if circuitId == 18 || circuitId == 19 {
        t := t + [Rot(RZ, wires[i], W(base + i))];
      }
      assert t == before + ZField(wires, base, circuitId)(i);
      RepeatNext(tape, i, ZField(wires, base, circuitId));
    }
  }

  method EmitControlled(tape: seq<Gate>, circuitId: int, a: Angle, control: Wire, target: Wire)
    returns (t: seq<Gate>)
    ensures t == tape + Controlled(circuitId, a, control, target)
  {
    t := tape;
    if circuitId == 18 {
      t := t + [Gate(CRZ, [control, target], a)];
    } else if circuitId == 19 {
      t := t + [Gate(CRX, [control, target], a)];
    }
  }

  method EmitRingCouplers(tape: seq<Gate>, wires: seq<Wire>, base: nat, circuitId: int) returns (t: seq<Gate>)
    ensures t == tape + Repeat(|wires|, RingCoupler(wires, base, circuitId))
  {
    var n := |wires|;
    t := tape;
    for i := 0 to n
      invariant t == tape + Repeat(i, RingCoupler(wires, base, circuitId))
    {
      ghost var before := t;
      if i == 0 {
        t := EmitControlled(t, circuitId, W(base + i), wires[n - 1], wires[0]);
      } else if i < n - 1 {
        t := EmitControlled(t, circuitId, W(base + i), wires[i], wires[i + 1]);
      }
      assert t == before + RingCoupler(wires, base, circuitId)(i);
      RepeatNext(tape, i, RingCoupler(wires, base, circuitId));
    }
  }

  method EmitPairBody(tape: seq<Gate>, wires: seq<Wire>, circuitId: int, l: nat) returns (r: Result<seq<Gate>>)
    requires |wires| == 2
    ensures !XEncoded(circuitId) ==> r == Err(ValueError(WrongCircuitId(circuitId)))
    ensures XEncoded(circuitId) ==> r == Ok(tape + Body(wires, circuitId, l, RingCoupler(wires, CouplerBase(|wires|, l), circuitId)))
  {
    if !(circuitId == 18 || circuitId == 19) {
      return Err(ValueError(WrongCircuitId(circuitId)));
    }
    var t := EmitZFields(tape, wires, l * 3, circuitId);
    t := EmitControlled(t, circuitId, W(l * 3 + 2), wires[1], wires[0]);
    AppendAssoc(tape, Repeat(2, ZField(wires, l * 3, circuitId)), Controlled(circuitId, W(l * 3 + 2), wires[1], wires[0]));
    return Ok(t);
  }

  method EmitRingBody(tape: seq<Gate>, wires: seq<Wire>, circuitId: int, l: nat) returns (t: seq<Gate>)
    requires |wires| != 1 && |wires| != 2
    ensures t == tape + Body(wires, circuitId, l, RingCoupler(wires, CouplerBase(|wires|, l), circuitId))
  {
    var n := |wires|;
    t := EmitZFields(tape, wires, l * 2 * n, circuitId);
    t := EmitRingCouplers(t, wires, l * 2 * n + n, circuitId);
    AppendAssoc(tape, Repeat(n, ZField(wires, l * 2 * n, circuitId)), Repeat(n, RingCoupler(wires, l * 2 * n + n, circuitId)));
  }

  /** Layer l after its encoding block; only the two-wire local fields can raise here. */
  method EmitBody(tape: seq<Gate>, wires: seq<Wire>, circuitId: int, l: nat) returns (r: Result<seq<Gate>>)
    ensures |wires| == 2 && !XEncoded(circuitId) ==> r == Err(ValueError(WrongCircuitId(circuitId)))
    ensures !(|wires| == 2 && !XEncoded(circuitId)) ==> r == Ok(tape + Body(wires, circuitId, l, RingCoupler(wires, CouplerBase(|wires|, l), circuitId)))
  {
    var n := |wires|;
    if n == 1 {
      var t := tape;
      if circuitId == 18 || circuitId == 19 {
        t := t + [Rot(RZ, wires[0], W(l))];
      }
      assert t == tape + Body(wires, circuitId, l, RingCoupler(wires, CouplerBase(n, l), circuitId));
      return Ok(t);
    } else if n == 2 {
      r := EmitPairBody(tape, wires, circuitId, l);
    } else {
      var t := EmitRingBody(tape, wires, circuitId, l);
      return Ok(t);
    }
  }

  method EmitLayers(tape: seq<Gate>, wires: seq<Wire>, d: nat, nLayers: nat, circuitId: int)
    returns (r: Result<seq<Gate>>)
    requires d <= |wires|
    ensures nLayers >= 1 && IdRejected(|wires|, d, circuitId) ==> r == Err(ValueError(WrongCircuitId(circuitId)))
    ensures !(nLayers >= 1 && IdRejected(|wires|, d, circuitId)) ==> r == Ok(tape + Repeat(nLayers, Layer(wires, d, circuitId)))
  {
    var t := tape;
    for l := 0 to nLayers
      invariant t == tape + Repeat(l, Layer(wires, d, circuitId))
      invariant l >= 1 ==> !IdRejected(|wires|, d, circuitId)
    {
      ghost var layers := Repeat(l, Layer(wires, d, circuitId));
      var e := EmitEncoding(t, wires, d, circuitId);
      if e.Err? {
        return Err(e.error);
      }
      var b := EmitBody(e.value, wires, circuitId, l);
      if b.Err? {
        return Err(b.error);
      }
      t := b.value;
      AppendAssoc(tape + layers, Encoding(wires, d, circuitId), Body(wires, circuitId, l, RingCoupler(wires, CouplerBase(|wires|, l), circuitId)));
      RepeatNext(tape, l, Layer(wires, d, circuitId));
    }
    return Ok(t);
  }

  /** shallow_circuit(weights, x, wires, n_layers, circuit_ID), issuing onto `tape`. */
  method Shallow(tape: seq<Gate>, weights: seq<real>, x: seq<real>, wires: seq<Wire>, nLayers: nat, circuitId: int)
    returns (r: Result<seq<Gate>>)
    ensures |x| > |wires| ==> r == Err(ValueError(TooManyFeatures(|wires|, |x|)))
    ensures |x| <= |wires| && |weights| != ChainWeightCount(|wires|, nLayers) ==>
      r == Err(ValueError(WrongWeightCount(ChainWeightCount(|wires|, nLayers), |weights|)))
    ensures Valid(x, weights, wires, nLayers) && nLayers >= 1 && IdRejected(|wires|, |x|, circuitId) ==>
      r == Err(ValueError(WrongCircuitId(circuitId)))
    ensures Valid(x, weights, wires, nLayers) && !(nLayers >= 1 && IdRejected(|wires|, |x|, circuitId)) ==>
      r == Ok(tape + Gates(wires, |x|, nLayers, circuitId))
  {
    var needed := ChainNeeded(|wires|, nLayers);
    if |x| > |wires| {
      return Err(ValueError(TooManyFeatures(|wires|, |x|)));
    }
    if |weights| != needed {
      return Err(ValueError(WrongWeightCount(needed, |weights|)));
    }
    var layers := EmitLayers(tape, wires, |x|, nLayers, circuitId);
    if layers.Err? {
      return Err(layers.error);
    }
    var t := EmitFinalEncoding(layers.value, wires, |x|, circuitId);
    AppendAssoc(tape, Repeat(nLayers, Layer(wires, |x|, circuitId)), FinalEncoding(wires, |x|, circuitId));
    return Ok(t);
  }

  /** The gates one layer issues under an ID it accepts: under 18 and 19 the encoding
      block, n local fields and n - 1 couplers (on one wire: one field; on two: two fields
      and one coupler), 3n - 1 in all; under any other ID only the encoding block. */
  function LayerGates(n: nat, id: int): nat {
    if !XEncoded(id) then n else if n == 0 then 0 else 3 * n - 1
  }

  /** The closing block: n gates under 18 and 19, only the n - d Hadamards otherwise. */
  function FinalGates(n: nat, d: nat, id: int): nat
    requires d <= n
  {
    if XEncoded(id) then n else n - d
  }

  /** The encoding block puts one gate on every wire, unless the ID is refused. */
  lemma EncodingLength(wires: seq<Wire>, d: nat, id: int)
    requires d <= |wires| && !(d >= 1 && !XEncoded(id) && !YEncoded(id))
    ensures |Encoding(wires, d, id)| == |wires|
  {
    RepeatLength(|wires|, EncodeWire(wires, d, id), 1);
  }

  lemma {:induction false} FinalEncodingPrefixLength(wires: seq<Wire>, d: nat, id: int, k: nat)
    requires d <= k <= |wires|
    ensures |Repeat(k, FinalEncodeWire(wires, d, id))| == if XEncoded(id) then k else k - d
  {
    var block := FinalEncodeWire(wires, d, id);
    if k == d {
      RepeatLength(d, block, if XEncoded(id) then 1 else 0);
    } else {
      FinalEncodingPrefixLength(wires, d, id, k - 1);
      assert |block(k - 1)| == 1;
    }
  }

  lemma FinalEncodingLength(wires: seq<Wire>, d: nat, id: int)
    requires d <= |wires|
    ensures |FinalEncoding(wires, d, id)| == FinalGates(|wires|, d, id)
  {
    FinalEncodingPrefixLength(wires, d, id, |wires|);
  }

  /** The body of a layer: the fields and couplers of 18 and 19, nothing under 11 and 12
      on one wire or three or more. */
  lemma BodyLength(wires: seq<Wire>, id: int, l: nat)
    requires !(|wires| == 2 && !XEncoded(id))
    ensures |Body(wires, id, l, RingCoupler(wires, CouplerBase(|wires|, l), id))| ==
      LayerGates(|wires|, id) - |wires|
  {
    var n := |wires|;
    var size := if XEncoded(id) then 1 else 0;
    if n == 2 {
      RepeatLength(2, ZField(wires, l * 3, id), 1);
    } else if n >= 3 {
      var couplers := RingCoupler(wires, CouplerBase(n, l), id);
      RepeatLength(n, ZField(wires, l * 2 * n, id), size);
      RepeatLength(n - 1, couplers, size);
      assert couplers(n - 1) == [];
      assert Repeat(n, couplers) == Repeat(n - 1, couplers);
    }
  }

  /** Under an ID shallow_circuit accepts, layer l issues LayerGates(n, id) gates. */
  lemma LayerLength(wires: seq<Wire>, d: nat, id: int, l: nat)
    requires d <= |wires| && !IdRejected(|wires|, d, id)
    ensures |Layer(wires, d, id)(l)| == LayerGates(|wires|, id)
  {
    EncodingLength(wires, d, id);
    BodyLength(wires, id, l);
  }

  /** The whole circuit: LayerGates(n, id) gates per layer, then the closing block. */
  lemma GateCount(wires: seq<Wire>, d: nat, layers: nat, id: int)
    requires d <= |wires| && (layers == 0 || !IdRejected(|wires|, d, id))
    ensures |Gates(wires, d, layers, id)| == layers * LayerGates(|wires|, id) + FinalGates(|wires|, d, id)
  {
    var block := Layer(wires, d, id);
    forall l | 0 <= l < layers
      ensures |block(l)| == LayerGates(|wires|, id)
    {
      LayerLength(wires, d, id, l);
    }
    RepeatLength(layers, block, LayerGates(|wires|, id));
    FinalEncodingLength(wires, d, id);
  }

  /** The ring neighbour before wire i: (i - 1) mod n. */
  function RingPrev(n: nat, i: nat): nat
    requires i < n
  {
    if i == 0 then n - 1 else i - 1
  }

  /** Coupler i as the weight count and the ring of the circuit diagram intend it: wire
      (i - 1) mod n controls wire i, so every coupler weight is read and every pair of
      ring neighbours is coupled. Coupler 0 is the one the code issues. */
  function IntendedCoupler(wires: seq<Wire>, base: nat, id: int): nat --> seq<Gate> {
    (i: nat) requires i < |wires| => Controlled(id, W(base + i), wires[RingPrev(|wires|, i)], wires[i])
  }

  function IntendedLayer(wires: seq<Wire>, d: nat, id: int): nat --> seq<Gate> {
    (l: nat) => Encoding(wires, d, id) + Body(wires, id, l, IntendedCoupler(wires, CouplerBase(|wires|, l), id))
  }

  /** shallow_circuit with the intended ring coupling. */
  function IntendedGates(wires: seq<Wire>, d: nat, layers: nat, id: int): seq<Gate> {
    Repeat(layers, IntendedLayer(wires, d, id)) + FinalEncoding(wires, d, id)
  }

  lemma EncodingUsesNone(wires: seq<Wire>, d: nat, id: int, i: int)
    ensures Uses(Encoding(wires, d, id), i) == 0
    ensures Uses(FinalEncoding(wires, d, id), i) == 0
  {
    var enc := EncodeWire(wires, d, id);
    var fin := FinalEncodeWire(wires, d, id);
    forall j | 0 <= j < |wires|
      ensures Uses(enc(j), i) == 0 && Uses(fin(j), i) == 0
    {
      if enc(j) != [] {
        UsesSingle(enc(j)[0], i);
      }
      if fin(j) != [] {
        UsesSingle(fin(j)[0], i);
      }
    }
    RepeatUsesNone(|wires|, enc, i);
    RepeatUsesNone(|wires|, fin, i);
  }

  lemma ControlledUses(id: int, a: Angle, control: Wire, target: Wire, i: int)
    ensures Uses(Controlled(id, a, control, target), i) == if XEncoded(id) then AngleUses(a, i) else 0
  {
    var c := Controlled(id, a, control, target);
    if c != [] {
      UsesSingle(c[0], i);
    }
  }

  /** The RZ fields read weights base .. base + n - 1 once each for circuits 18 and 19,
      and nothing otherwise. */
  lemma ZFieldsUses(wires: seq<Wire>, base: nat, id: int, i: int)
    ensures Uses(Repeat(|wires|, ZField(wires, base, id)), i) ==
      if XEncoded(id) then Once(base, base + |wires|, i) else 0
  {
    var block := ZField(wires, base, id);
    if XEncoded(id) {
      forall j | 0 <= j < |wires|
        ensures Uses(block(j), i) == Once(Offset(base, j, 1), Offset(base, j + 1, 1), i)
      {
        UsesSingle(block(j)[0], i);
      }
      RepeatUses(|wires|, block, base, 1, i);
    } else {
      RepeatUsesNone(|wires|, block, i);
    }
  }

  lemma RingCouplerUses(wires: seq<Wire>, base: nat, id: int, j: nat, i: int)
    requires j < |wires| - 1
    ensures Uses(RingCoupler(wires, base, id)(j), i) == if XEncoded(id) then Once(base + j, base + j + 1, i) else 0
  {
    if j == 0 {
      ControlledUses(id, W(base + j), wires[|wires| - 1], wires[0], i);
    } else {
      ControlledUses(id, W(base + j), wires[j], wires[j + 1], i);
    }
  }

  lemma RingCouplerLast(wires: seq<Wire>, base: nat, id: int)
    requires |wires| >= 2
    ensures RingCoupler(wires, base, id)(|wires| - 1) == []
  {
  }

  /** As written, the coupling loop reads the coupler weights base .. base + n - 2 once
      each for circuits 18 and 19: the last one, base + n - 1, is never read. */
  lemma RingCouplersUses(wires: seq<Wire>, base: nat, id: int, i: int)
    requires |wires| >= 2
    ensures Uses(Repeat(|wires|, RingCoupler(wires, base, id)), i) ==
      if XEncoded(id) then Once(base, base + |wires| - 1, i) else 0
  {
    var n := |wires|;
    var block := RingCoupler(wires, base, id);
    RingCouplerLast(wires, base, id);
    RepeatDropEmpty(n, block);
    if XEncoded(id) {
      forall j | 0 <= j < n - 1
        ensures Uses(block(j), i) == Once(Offset(base, j, 1), Offset(base, j + 1, 1), i)
      {
        RingCouplerUses(wires, base, id, j, i);
      }
      RepeatUses(n - 1, block, base, 1, i);
    } else {
      forall j | 0 <= j < n - 1
        ensures Uses(block(j), i) == 0
      {
        RingCouplerUses(wires, base, id, j, i);
      }
      RepeatUsesNone(n - 1, block, i);
    }
  }

  /** The intended coupling loop reads every coupler weight once for circuits 18 and 19. */
  lemma IntendedCouplersUses(wires: seq<Wire>, base: nat, id: int, i: int)
    ensures Uses(Repeat(|wires|, IntendedCoupler(wires, base, id)), i) ==
      if XEncoded(id) then Once(base, base + |wires|, i) else 0
  {
    var n := |wires|;
    var block := IntendedCoupler(wires, base, id);
    forall j | 0 <= j < n
      ensures Uses(block(j), i) == if XEncoded(id) then Once(Offset(base, j, 1), Offset(base, j + 1, 1), i) else 0
    {
      ControlledUses(id, W(base + j), wires[RingPrev(n, j)], wires[j], i);
    }
    if XEncoded(id) {
      RepeatUses(n, block, base, 1, i);
    } else {
      RepeatUsesNone(n, block, i);
    }
  }

  /** The uses of one and two-wire layers, which do not depend on the ring couplers. */
  lemma ShortBodyUses(wires: seq<Wire>, id: int, l: nat, couplers: nat --> seq<Gate>, i: int)
    requires forall j :: 0 <= j < |wires| ==> couplers.requires(j)
    requires |wires| == 1 || |wires| == 2
    ensures Uses(Body(wires, id, l, couplers), i) ==
      if XEncoded(id) then Once(l * ChainLayerWeights(|wires|), l * ChainLayerWeights(|wires|) + ChainLayerWeights(|wires|), i) else 0
  {
    var body := Body(wires, id, l, couplers);
    if |wires| == 1 {
      if body != [] {
        UsesSingle(body[0], i);
      }
    } else {
      ZFieldsUses(wires, l * 3, id, i);
      ControlledUses(id, W(l * 3 + 2), wires[1], wires[0], i);
      UsesConcat(Repeat(2, ZField(wires, l * 3, id)), Controlled(id, W(l * 3 + 2), wires[1], wires[0]), i);
    }
  }

  /** A ring layer reads the fields' weights 2nl .. 2nl + n - 1 (circuits 18 and 19) and
      what its coupling loop reads. */
  lemma RingBodyUses(wires: seq<Wire>, id: int, l: nat, couplers: nat --> seq<Gate>, i: int)
    requires forall j :: 0 <= j < |wires| ==> couplers.requires(j)
    requires |wires| >= 3
    ensures Uses(Body(wires, id, l, couplers), i) ==
      (if XEncoded(id) then Once(l * 2 * |wires|, CouplerBase(|wires|, l), i) else 0) + Uses(Repeat(|wires|, couplers), i)
  {
    var n := |wires|;
    ZFieldsUses(wires, l * 2 * n, id, i);
    UsesConcat(Repeat(n, ZField(wires, l * 2 * n, id)), Repeat(n, couplers), i);
  }

  /** The weights one layer of shallow_circuit reads, as written, with circuit 18 or 19:
      all of its slice on one or two wires, all but the last on three or more. */
  function LayerReads(n: nat): nat {
    if n >= 3 then ChainLayerWeights(n) - 1 else ChainLayerWeights(n)
  }

  lemma RingLayerUses(wires: seq<Wire>, d: nat, id: int, l: nat, i: int)
    requires |wires| >= 3
    ensures Uses(Layer(wires, d, id)(l), i) ==
      if XEncoded(id) then Once(l * 2 * |wires|, l * 2 * |wires| + 2 * |wires| - 1, i) else 0
  {
    var n := |wires|;
    var couplers := RingCoupler(wires, CouplerBase(n, l), id);
    EncodingUsesNone(wires, d, id, i);
    UsesConcat(Encoding(wires, d, id), Body(wires, id, l, couplers), i);
    RingBodyUses(wires, id, l, couplers, i);
    RingCouplersUses(wires, CouplerBase(n, l), id, i);
  }

  /** Layer l as written reads, with circuit 18 or 19, the first LayerReads(n) weights of
      its slice [lS, lS + S) once each, and nothing with any other circuit_ID. */
  lemma EmptyLayerUses(wires: seq<Wire>, d: nat, id: int, l: nat, i: int)
    requires |wires| == 0
    ensures Uses(Layer(wires, d, id)(l), i) == 0
    ensures Uses(IntendedLayer(wires, d, id)(l), i) == 0
  {
    EncodingUsesNone(wires, d, id, i);
    assert Layer(wires, d, id)(l) == Encoding(wires, d, id) + [];
    assert IntendedLayer(wires, d, id)(l) == Encoding(wires, d, id) + [];
  }

  lemma ShortLayerUses(wires: seq<Wire>, d: nat, id: int, l: nat, i: int)
    requires 1 <= |wires| <= 2
    ensures Uses(Layer(wires, d, id)(l), i) ==
      if XEncoded(id) then Once(l * ChainLayerWeights(|wires|), l * ChainLayerWeights(|wires|) + ChainLayerWeights(|wires|), i) else 0
    ensures Uses(IntendedLayer(wires, d, id)(l), i) ==
      if XEncoded(id) then Once(l * ChainLayerWeights(|wires|), l * ChainLayerWeights(|wires|) + ChainLayerWeights(|wires|), i) else 0
  {
    var n := |wires|;
    var written := RingCoupler(wires, CouplerBase(n, l), id);
    var intended := IntendedCoupler(wires, CouplerBase(n, l), id);
    assert Body(wires, id, l, written) == Body(wires, id, l, intended);
    EncodingUsesNone(wires, d, id, i);
    UsesConcat(Encoding(wires, d, id), Body(wires, id, l, written), i);
    ShortBodyUses(wires, id, l, written, i);
  }

  /** Layer l as written reads, with circuit 18 or 19, the first LayerReads(n) weights of
      its slice [lS, lS + S) once each, and nothing with any other circuit_ID. */
  lemma LayerUses(wires: seq<Wire>, d: nat, id: int, l: nat, i: int)
    ensures Uses(Layer(wires, d, id)(l), i) ==
      if XEncoded(id) then Once(l * ChainLayerWeights(|wires|), l * ChainLayerWeights(|wires|) + LayerReads(|wires|), i)
      else 0
  {
    var n := |wires|;
    if n == 0 {
      EmptyLayerUses(wires, d, id, l, i);
    } else if n <= 2 {
      ShortLayerUses(wires, d, id, l, i);
    } else {
      var size := ChainLayerWeights(n);
      assert size == 2 * n;
      assert l * size == l * 2 * n;
      RingLayerUses(wires, d, id, l, i);
    }
  }

  lemma IntendedRingLayerUses(wires: seq<Wire>, d: nat, id: int, l: nat, i: int)
    requires |wires| >= 3
    ensures Uses(IntendedLayer(wires, d, id)(l), i) ==
      if XEncoded(id) then Once(l * 2 * |wires|, l * 2 * |wires| + 2 * |wires|, i) else 0
  {
    var n := |wires|;
    var couplers := IntendedCoupler(wires, CouplerBase(n, l), id);
    EncodingUsesNone(wires, d, id, i);
    UsesConcat(Encoding(wires, d, id), Body(wires, id, l, couplers), i);
    RingBodyUses(wires, id, l, couplers, i);
    IntendedCouplersUses(wires, CouplerBase(n, l), id, i);
  }

  /** The intended layer l reads every weight of its slice once with circuit 18 or 19. */
  lemma IntendedLayerUses(wires: seq<Wire>, d: nat, id: int, l: nat, i: int)
    ensures Uses(IntendedLayer(wires, d, id)(l), i) ==
      if XEncoded(id) then
        Once(l * ChainLayerWeights(|wires|), l * ChainLayerWeights(|wires|) + ChainLayerWeights(|wires|), i)
      else 0
  {
    var n := |wires|;
    var size := ChainLayerWeights(n);
    if n == 0 {
      EmptyLayerUses(wires, d, id, l, i);
    } else if n <= 2 {
      ShortLayerUses(wires, d, id, l, i);
    } else {
      assert size == 2 * n;
      assert l * size == l * 2 * n;
      IntendedRingLayerUses(wires, d, id, l, i);
    }
  }

  /** Whatever the circuit_ID, shallow_circuit reads no weight twice and none past the
      ones it demands. */
  lemma ReadsAtMostOnce(wires: seq<Wire>, d: nat, layers: nat, id: int, i: int)
    ensures Uses(Gates(wires, d, layers, id), i) <= Once(0, ChainWeightCount(|wires|, layers), i)
  {
    var size := ChainLayerWeights(|wires|);
    var block := Layer(wires, d, id);
    forall l | 0 <= l < layers
      ensures Uses(block(l), i) <= Once(Offset(0, l, size), Offset(0, l + 1, size), i)
    {
      LayerUses(wires, d, id, l, i);
      OffsetStep(0, l, size);
    }
    RepeatUsesAtMost(layers, block, 0, size, i);
    EncodingUsesNone(wires, d, id, i);
    UsesConcat(Repeat(layers, block), FinalEncoding(wires, d, id), i);
    ChainCount(|wires|, layers);
  }

  /** On one or two wires, circuits 18 and 19 read every weight they demand exactly once. */
  lemma ShortReadsEachWeightOnce(wires: seq<Wire>, d: nat, layers: nat, id: int, i: int)
    requires XEncoded(id) && 1 <= |wires| <= 2
    ensures Uses(Gates(wires, d, layers, id), i) == Once(0, ChainWeightCount(|wires|, layers), i)
  {
    var size := ChainLayerWeights(|wires|);
    var block := Layer(wires, d, id);
    forall l | 0 <= l < layers
      ensures Uses(block(l), i) == Once(Offset(0, l, size), Offset(0, l + 1, size), i)
    {
      LayerUses(wires, d, id, l, i);
      OffsetStep(0, l, size);
    }
    RepeatUses(layers, block, 0, size, i);
    EncodingUsesNone(wires, d, id, i);
    UsesConcat(Repeat(layers, block), FinalEncoding(wires, d, id), i);
    ChainCount(|wires|, layers);
  }

  /** No layer j reads the last coupler weight of layer l. */
  lemma LayerSkips(wires: seq<Wire>, d: nat, id: int, l: nat, j: nat)
    requires |wires| >= 3
    ensures Uses(Layer(wires, d, id)(j), l * 2 * |wires| + 2 * |wires| - 1) == 0
  {
    var n := |wires|;
    var size := ChainLayerWeights(n);
    assert size == 2 * n;
    assert l * size == l * 2 * n;
    if j != l {
      SlicesApart(j, l, size);
    }
    LayerUses(wires, d, id, j, l * 2 * n + 2 * n - 1);
  }

  lemma LastCouplerDemanded(n: nat, l: nat, layers: nat)
    requires n >= 3 && l < layers
    ensures l * 2 * n + 2 * n - 1 < ChainWeightCount(n, layers)
  {
    SliceAfter(l, layers - l - 1, 2 * n);
    assert 2 * n * layers == layers * (2 * n);
  }

  /** A weight no layer reads is not read by the circuit. */
  lemma UnreadByLayers(wires: seq<Wire>, d: nat, layers: nat, id: int, i: int)
    requires forall j: nat {:trigger Layer(wires, d, id)(j)} :: j < layers ==> Uses(Layer(wires, d, id)(j), i) == 0
    ensures Uses(Gates(wires, d, layers, id), i) == 0
  {
    var block := Layer(wires, d, id);
    RepeatUsesNone(layers, block, i);
    EncodingUsesNone(wires, d, id, i);
    UsesConcat(Repeat(layers, block), FinalEncoding(wires, d, id), i);
  }

  /** On three or more wires, whatever the circuit_ID, the last coupler weight of every
      layer, weights[2nl + 2n - 1], is demanded by the weight count but never read. */
  lemma SkipsLastCouplerWeight(wires: seq<Wire>, d: nat, layers: nat, id: int, l: nat)
    requires |wires| >= 3 && l < layers
    ensures l * 2 * |wires| + 2 * |wires| - 1 < ChainWeightCount(|wires|, layers)
    ensures Uses(Gates(wires, d, layers, id), l * 2 * |wires| + 2 * |wires| - 1) == 0
  {
    var n := |wires|;
    LastCouplerDemanded(n, l, layers);
    forall j: nat | j < layers
      ensures Uses(Layer(wires, d, id)(j), l * 2 * n + 2 * n - 1) == 0
    {
      LayerSkips(wires, d, id, l, j);
    }
    UnreadByLayers(wires, d, layers, id, l * 2 * n + 2 * n - 1);
  }

  /** Three wires a, b, c under circuit 18, as written: the coupling loop issues CRZ from
      c to a and from b to c only; a and b are never coupled. */
  lemma ThreeWireCouplers(a: Wire, b: Wire, c: Wire, base: nat)
    ensures Repeat(3, RingCoupler([a, b, c], base, 18)) ==
      [Gate(CRZ, [c, a], W(base)), Gate(CRZ, [b, c], W(base + 1))]
  {
    var block := RingCoupler([a, b, c], base, 18);
    assert block(0) == [Gate(CRZ, [c, a], W(base))];
    assert block(1) == [Gate(CRZ, [b, c], W(base + 1))];
    assert block(2) == [];
    assert Repeat(1, block) == block(0);
  }

  /** On any n >= 3 distinct wires the coupling loop as written never couples wires 0
      and 1, in either direction. */
  lemma FirstPairNeverCoupled(wires: seq<Wire>, base: nat, id: int)
    requires |wires| >= 3 && forall a, b :: 0 <= a < b < |wires| ==> wires[a] != wires[b]
    ensures forall g :: g in Repeat(|wires|, RingCoupler(wires, base, id)) ==>
      g.wires != [wires[0], wires[1]] && g.wires != [wires[1], wires[0]]
  {
    var n := |wires|;
    var block := RingCoupler(wires, base, id);
    forall g | g in Repeat(n, block)
      ensures g.wires != [wires[0], wires[1]] && g.wires != [wires[1], wires[0]]
    {
      var j := RepeatIn(n, block, g);
      CouplerAvoidsFirstPair(wires, base, id, j, g);
    }
  }

  lemma CouplerAvoidsFirstPair(wires: seq<Wire>, base: nat, id: int, j: nat, g: Gate)
    requires |wires| >= 3 && forall a, b :: 0 <= a < b < |wires| ==> wires[a] != wires[b]
    requires j < |wires| && g in RingCoupler(wires, base, id)(j)
    ensures g.wires != [wires[0], wires[1]] && g.wires != [wires[1], wires[0]]
  {
    var n := |wires|;
    if j == 0 {
      ControlledWires(id, W(base), wires[n - 1], wires[0], g);
      assert wires[0] != wires[n - 1] && wires[1] != wires[n - 1];
    } else {
      assert j < n - 1;
      ControlledWires(id, W(base + j), wires[j], wires[j + 1], g);
      assert wires[0] != wires[j] && wires[0] != wires[j + 1];
    }
  }

  lemma ControlledWires(id: int, a: Angle, control: Wire, target: Wire, g: Gate)
    requires g in Controlled(id, a, control, target)
    ensures g.wires == [control, target]
  {
  }

  /** The intended coupler i joins ring neighbours (i - 1) mod n and i by coupler weight i. */
  lemma IntendedCouplerAt(wires: seq<Wire>, base: nat, id: int, i: nat)
    requires XEncoded(id) && i < |wires|
    ensures |Repeat(|wires|, IntendedCoupler(wires, base, id))| == |wires|
    ensures Repeat(|wires|, IntendedCoupler(wires, base, id))[i] ==
      Gate(if id == 18 then CRZ else CRX, [wires[RingPrev(|wires|, i)], wires[i]], W(base + i))
  {
    var block := IntendedCoupler(wires, base, id);
    RepeatLength(|wires|, block, 1);
    RepeatBlockAt(|wires|, block, 1, i);
    assert Repeat(|wires|, block)[i .. i + 1] == block(i);
  }

  /** With the intended coupling, circuits 18 and 19 read every weight they demand once. */
  lemma IntendedReadsEachWeightOnce(wires: seq<Wire>, d: nat, layers: nat, id: int, i: int)
    requires XEncoded(id)
    ensures Uses(IntendedGates(wires, d, layers, id), i) == Once(0, ChainWeightCount(|wires|, layers), i)
  {
    var size := ChainLayerWeights(|wires|);
    var block := IntendedLayer(wires, d, id);
    forall l | 0 <= l < layers
      ensures Uses(block(l), i) == Once(Offset(0, l, size), Offset(0, l + 1, size), i)
    {
      IntendedLayerUses(wires, d, id, l, i);
      OffsetStep(0, l, size);
    }
    RepeatUses(layers, block, 0, size, i);
    EncodingUsesNone(wires, d, id, i);
    UsesConcat(Repeat(layers, block), FinalEncoding(wires, d, id), i);
    ChainCount(|wires|, layers);
  }
}
