/** `VQC` of Simulation_of_Variational_Circuits/featuremaps.py, circuits 5 (types 2)
    and 6 (types 1) of the Sim et al. catalogue, and its weight generator `pars_VQC`.
    With n wires and d features a layer issues: x[i] as RX on the data wires, a
    trainable RX on each other wire, a trainable RZ on every wire, a controlled
    rotation from every wire to every other wire, and then the same three rotation
    blocks once more with fresh weights. A layer demands n(n + 3) - 2d weights. */
module Vqc {
  import opened Circuit
  import opened Errors

  /** The weights one layer demands: `weights_each_layer`. */
  function LayerWeights(n: nat, d: nat): int {
    n * (n + 3) - 2 * d
  }

  /** How the weight of the controlled rotation from wire i to wire j (j != i) is
      chosen: as the code writes it, i(n - 1) + j, or as the n(n - 1) slots reserved for
      these gates intend it, i(n - 1) + j with j counted among the wires other than i. */
  datatype SlotRule = AsWritten | Intended

  function Slot(rule: SlotRule, n: nat, i: nat, j: nat): nat
    requires i < n && j < n && i != j
  {
    match rule
    case AsWritten => i * (n - 1) + j
    case Intended => i * (n - 1) + (if j < i then j else j - 1)
  }

  lemma LayerWeightsNat(n: nat, d: nat)
    requires d <= n
    ensures LayerWeights(n, d) >= n * (n + 1) >= 0
  {
    assert n * (n + 3) == n * (n + 1) + 2 * n;
  }

  lemma MulNat(a: nat, b: nat)
    ensures a * b >= 0
  {
  }

  /** x[i] as RX on data wire i, for i < d. */
  function DataRX(wires: seq<Wire>, d: nat): seq<Gate>
    requires d <= |wires|
  {
    Repeat(d, (i: nat) requires i < d => [Rot(RX, wires[i], X(i))])
  }

  /** weights[base + i] as RX on wire d + i, for every wire past the data. */
  function WeightRX(wires: seq<Wire>, d: nat, base: nat): seq<Gate>
    requires d <= |wires|
  {
    Repeat(|wires| - d, (i: nat) requires i < |wires| - d => [Rot(RX, wires[i + d], W(base + i))])
  }

  /** weights[base + i] as RZ on wire i, for every wire. */
  function RZRow(wires: seq<Wire>, base: nat): seq<Gate> {
    Repeat(|wires|, (i: nat) requires i < |wires| => [Rot(RZ, wires[i], W(base + i))])
  }

  /** The controlled rotation of circuit 6 (types 1, CRX) or 5 (types 2, CRZ); other
      types issue nothing. */
  function Controlled(types: int, a: Angle, control: Wire, target: Wire): seq<Gate> {
    if types == 1 then [Gate(CRX, [control, target], a)]
    else if types == 2 then [Gate(CRZ, [control, target], a)]
    else []
  }

  /** Step m of the inner loop for control wire i: target j = n - 1 - m, skipped when it
      is i itself. */
  function PairGate(wires: seq<Wire>, base: nat, types: int, rule: SlotRule, i: nat): nat --> seq<Gate>
    requires i < |wires|
  {
    (m: nat) requires m < |wires| =>
      var j := |wires| - 1 - m;
      if j == i then [] else Controlled(types, W(base + Slot(rule, |wires|, i, j)), wires[i], wires[j])
  }

  /** Step k of the outer loop: control wire i = n - 1 - k. */
  function PairRow(wires: seq<Wire>, base: nat, types: int, rule: SlotRule): nat --> seq<Gate> {
    (k: nat) requires k < |wires| => Repeat(|wires|, PairGate(wires, base, types, rule, |wires| - 1 - k))
  }

  /** The two reversed loops over control i and target j != i. */
  function Entangling(wires: seq<Wire>, base: nat, types: int, rule: SlotRule): seq<Gate> {
    Repeat(|wires|, PairRow(wires, base, types, rule))
  }

  /** The three rotation blocks a layer issues twice, from weight `base` on: x[i] as RX
      on the data wires, trainable RX on the others, trainable RZ on every wire. */
  function Rotations(wires: seq<Wire>, d: nat, base: nat): seq<Gate>
    requires d <= |wires|
  {
    DataRX(wires, d) + WeightRX(wires, d, base) + RZRow(wires, base + |wires| - d)
  }

  /** The first half of layer l, from weight `base` = l * LayerWeights(n, d) on: the
      rotations, then the controlled rotations from weight base + 2n - d on. */
  function FirstHalf(wires: seq<Wire>, d: nat, base: nat, types: int, rule: SlotRule): seq<Gate>
    requires d <= |wires|
  {
    Rotations(wires, d, base) + Entangling(wires, base + 2 * |wires| - d, types, rule)
  }

  /** The second half: the rotations once more, from weight base + n(n + 1) - d on. */
  function SecondHalf(wires: seq<Wire>, d: nat, base: nat): seq<Gate>
    requires d <= |wires|
  {
    Rotations(wires, d, base + |wires| * (|wires| + 1) - d)
  }

  /** Where the weights of layer l start: `weights_each_layer * l`. */
  function LayerBase(n: nat, d: nat, l: nat): nat
    requires d <= n
  {
    LayerWeightsNat(n, d);
    MulNat(l, LayerWeights(n, d));
    l * LayerWeights(n, d)
  }

  /** The weight count VQC demands: `weights_each_layer * n_layers`, for valid input. */
  function Needed(n: nat, d: nat, layers: nat): nat
    requires d <= n
  {
    LayerBase(n, d, layers)
  }

  /** A layer whose weights start at `base`. */
  function LayerFrom(wires: seq<Wire>, d: nat, base: nat, types: int, rule: SlotRule): seq<Gate>
    requires d <= |wires|
  {
    FirstHalf(wires, d, base, types, rule) + SecondHalf(wires, d, base)
  }

  function Layer(wires: seq<Wire>, d: nat, types: int, rule: SlotRule): nat --> seq<Gate>
    requires d <= |wires|
  {
    (l: nat) => LayerFrom(wires, d, LayerBase(|wires|, d, l), types, rule)
  }

  /** What VQC issues when it raises nothing, with the weight slots of `rule`. */
  function Gates(wires: seq<Wire>, d: nat, layers: nat, types: int, rule: SlotRule): seq<Gate>
    requires d <= |wires|
  {
    Repeat(layers, Layer(wires, d, types, rule))
  }


  method EmitDataRX(tape: seq<Gate>, wires: seq<Wire>, d: nat) returns (t: seq<Gate>)
    requires d <= |wires|
    ensures t == tape + DataRX(wires, d)
  {
    ghost var block := (i: nat) requires i < d => [Rot(RX, wires[i], X(i))];
    t := tape;
    for i := 0 to d
      invariant t == tape + Repeat(i, block)
    {
      ghost var before := t;
      t := t + [Rot(RX, wires[i], X(i))];
      assert t == before + block(i);
      RepeatNext(tape, i, block);
    }
  }

  method EmitWeightRX(tape: seq<Gate>, wires: seq<Wire>, d: nat, base: nat) returns (t: seq<Gate>)
    requires d <= |wires|
    ensures t == tape + WeightRX(wires, d, base)
  {
    ghost var block := (i: nat) requires i < |wires| - d => [Rot(RX, wires[i + d], W(base + i))];
    t := tape;
    for i := 0 to |wires| - d
      invariant t == tape + Repeat(i, block)
    {
      ghost var before := t;
      t := t + [Rot(RX, wires[i + d], W(base + i))];
      assert t == before + block(i);
      RepeatNext(tape, i, block);
    }
  }

  method EmitRZRow(tape: seq<Gate>, wires: seq<Wire>, base: nat) returns (t: seq<Gate>)
    ensures t == tape + RZRow(wires, base)
  {
    ghost var block := (i: nat) requires i < |wires| => [Rot(RZ, wires[i], W(base + i))];
    t := tape;
    for i := 0 to |wires|
      invariant t == tape + Repeat(i, block)
    {
      ghost var before := t;
      t := t + [Rot(RZ, wires[i], W(base + i))];
      assert t == before + block(i);
      RepeatNext(tape, i, block);
    }
  }

  /** Step m = n - 1 - j of the inner loop issues the gate to target j, unless j = i. */
  lemma PairGateAt(wires: seq<Wire>, base: nat, types: int, rule: SlotRule, i: nat, j: nat)
    requires i < |wires| && j < |wires|
    ensures PairGate(wires, base, types, rule, i)(|wires| - 1 - j) ==
      if j == i then [] else Controlled(types, W(base + Slot(rule, |wires|, i, j)), wires[i], wires[j])
  {
  }

  /** The inner loop `for j in reversed(range(n))` for control wire i, as written. */
  method EmitPairRow(tape: seq<Gate>, wires: seq<Wire>, base: nat, types: int, i: nat) returns (t: seq<Gate>)
    requires i < |wires|
    ensures t == tape + Repeat(|wires|, PairGate(wires, base, types, AsWritten, i))
  {
    var n := |wires|;
    ghost var block := PairGate(wires, base, types, AsWritten, i);
    t := tape;
    for j := n downto 0
      invariant t == tape + Repeat(n - j, block)
    {
      ghost var before := t;
      PairGateAt(wires, base, types, AsWritten, i, j);
      if j != i {
        var slot := i * (n - 1) + j;
        assert slot == Slot(AsWritten, n, i, j);
        if types == 1 {
          t := t + [Gate(CRX, [wires[i], wires[j]], W(base + slot))];
        }
        if types == 2 {
          t := t + [Gate(CRZ, [wires[i], wires[j]], W(base + slot))];
        }
      }
      assert t == before + block(n - 1 - j);
      RepeatNext(tape, n - 1 - j, block);
    }
  }

  /** The outer loop `for i in reversed(range(n))`. */
  method EmitEntangling(tape: seq<Gate>, wires: seq<Wire>, base: nat, types: int) returns (t: seq<Gate>)
    ensures t == tape + Entangling(wires, base, types, AsWritten)
  {
    var n := |wires|;
    ghost var block := PairRow(wires, base, types, AsWritten);
    t := tape;
    for i := n downto 0
      invariant t == tape + Repeat(n - i, block)
    {
      ghost var before := t;
      t := EmitPairRow(t, wires, base, types, i);
      assert t == before + block(n - 1 - i);
      RepeatNext(tape, n - 1 - i, block);
    }
  }

  method EmitRotations(tape: seq<Gate>, wires: seq<Wire>, d: nat, base: nat, rzBase: nat) returns (t: seq<Gate>)
    requires d <= |wires| && rzBase == base + |wires| - d
    ensures t == tape + Rotations(wires, d, base)
  {
    ghost var a := DataRX(wires, d);
    ghost var b := WeightRX(wires, d, base);
    t := EmitDataRX(tape, wires, d);
    t := EmitWeightRX(t, wires, d, base);
    AppendAssoc(tape, a, b);
    t := EmitRZRow(t, wires, rzBase);
    AppendAssoc(tape, a + b, RZRow(wires, rzBase));
  }

  method EmitFirstHalf(tape: seq<Gate>, wires: seq<Wire>, d: nat, base: nat, types: int) returns (t: seq<Gate>)
    requires d <= |wires|
    ensures t == tape + FirstHalf(wires, d, base, types, AsWritten)
  {
    var n := |wires|;
    t := EmitRotations(tape, wires, d, base, base + n - d);
    t := EmitEntangling(t, wires, base + 2 * n - d, types);
    AppendAssoc(tape, Rotations(wires, d, base), Entangling(wires, base + 2 * n - d, types, AsWritten));
  }

  /** The second half, with the offsets base + n(n + 1) - d for RX and base + n(n + 2) - 2d
      for RZ as the code writes them. */
  method EmitSecondHalf(tape: seq<Gate>, wires: seq<Wire>, d: nat, base: nat) returns (t: seq<Gate>)
    requires d <= |wires|
    ensures t == tape + SecondHalf(wires, d, base)
  {
    var n := |wires|;
    LayerBounds(n, d);
    t := EmitRotations(tape, wires, d, base + n * (n + 1) - d, base + n * (n + 2) - 2 * d);
  }

  lemma LayerBaseIs(n: nat, d: nat, l: nat)
    requires d <= n
    ensures (n * (n + 3) - 2 * d) * l == LayerBase(n, d, l)
  {
  }

  /** One pass of the layer loop of VQC: layer `l` starts at weight l * w. */
  method EmitLayer(tape: seq<Gate>, wires: seq<Wire>, d: nat, l: nat, types: int) returns (t: seq<Gate>)
    requires d <= |wires|
    ensures t == tape + Layer(wires, d, types, AsWritten)(l)
  {
    LayerBaseIs(|wires|, d, l);
    var base := (|wires| * (|wires| + 3) - 2 * d) * l;
    t := EmitFirstHalf(tape, wires, d, base, types);
    t := EmitSecondHalf(t, wires, d, base);
    assert LayerFrom(wires, d, base, types, AsWritten) == Layer(wires, d, types, AsWritten)(l);
    AppendAssoc(tape, FirstHalf(wires, d, base, types, AsWritten), SecondHalf(wires, d, base));
  }

  method EmitLayers(tape: seq<Gate>, wires: seq<Wire>, d: nat, nLayers: nat, types: int) returns (t: seq<Gate>)
    requires d <= |wires|
    ensures t == tape + Gates(wires, d, nLayers, types, AsWritten)
  {
    t := tape;
    for l := 0 to nLayers
      invariant t == tape + Repeat(l, Layer(wires, d, types, AsWritten))
    {
      t := EmitLayer(t, wires, d, l, types);
      RepeatNext(tape, l, Layer(wires, d, types, AsWritten));
    }
  }

  /** VQC(weights, x, wires, n_layers, types), issuing onto `tape`. */
  method VQC(tape: seq<Gate>, weights: seq<real>, x: seq<real>, wires: seq<Wire>, nLayers: nat, types: int)
    returns (r: Result<seq<Gate>>)
    ensures |x| > |wires| ==> r == Err(ValueError(TooManyFeatures(|wires|, |x|)))
    ensures |x| <= |wires| && |weights| != Needed(|wires|, |x|, nLayers) ==>
      r == Err(ValueError(WrongWeightCount(Needed(|wires|, |x|, nLayers), |weights|)))
    ensures |x| <= |wires| && |weights| == Needed(|wires|, |x|, nLayers) ==>
      r == Ok(tape + Gates(wires, |x|, nLayers, types, AsWritten))
  {
    var dataSize := |x|;
    var n := |wires|;
    var weightsEachLayer := n * (n + 3) - 2 * dataSize;
    var needed := weightsEachLayer * nLayers;
    if dataSize > n {
      return Err(ValueError(TooManyFeatures(n, dataSize)));
    }
    assert needed == Needed(n, dataSize, nLayers);
    if |weights| != needed {
      return Err(ValueError(WrongWeightCount(needed, |weights|)));
    }
    var t := EmitLayers(tape, wires, dataSize, nLayers, types);
    return Ok(t);
  }

  /** The `Intended` rule gives the n(n - 1) controlled rotations of a layer the slots
      0 .. n(n - 1) - 1, one each: within control row i, the targets j != i take the
      n - 1 slots from i(n - 1) on. */
  lemma IntendedSlotInRow(n: nat, i: nat, j: nat)
    requires i < n && j < n && i != j
    ensures i * (n - 1) <= Slot(Intended, n, i, j) < i * (n - 1) + (n - 1)
  {
  }

  lemma IntendedSlotsApart(n: nat, i: nat, j: nat, k: nat)
    requires i < n && j < n && k < n && i != j && i != k && j != k
    ensures Slot(Intended, n, i, j) != Slot(Intended, n, i, k)
  {
  }

  /** The code as written gives the rotations from wire 0 to wire n - 1 and from wire 1 to
      wire 0 the same slot, n - 1, and gives no rotation slot 0. */
  lemma AsWrittenSlotsCollide(n: nat)
    requires n >= 2
    ensures Slot(AsWritten, n, 0, n - 1) == Slot(AsWritten, n, 1, 0) == n - 1
    ensures forall i, j :: 0 <= i < n && 0 <= j < n && i != j ==> Slot(AsWritten, n, i, j) != 0
  {
    forall i, j | 0 <= i < n && 0 <= j < n && i != j
      ensures Slot(AsWritten, n, i, j) != 0
    {
      if i > 0 {
        MulNat(i - 1, n - 1);
        assert i * (n - 1) == (i - 1) * (n - 1) + (n - 1);
      }
    }
  }

  lemma ControlledUses(types: int, a: Angle, control: Wire, target: Wire, p: int)
    requires types == 1 || types == 2
    ensures Uses(Controlled(types, a, control, target), p) == AngleUses(a, p)
  {
    UsesSingle(Controlled(types, a, control, target)[0], p);
  }

  lemma IntendedPairGateUses(wires: seq<Wire>, base: nat, types: int, i: nat, m: nat, p: int)
    requires i < |wires| && m < |wires| && (types == 1 || types == 2)
    ensures var j := |wires| - 1 - m;
      Uses(PairGate(wires, base, types, Intended, i)(m), p) ==
        if j != i && p == base + Slot(Intended, |wires|, i, j) then 1 else 0
  {
    var j := |wires| - 1 - m;
    if j != i {
      ControlledUses(types, W(base + Slot(Intended, |wires|, i, j)), wires[i], wires[j], p);
    }
  }

  /** Control row i reads the n - 1 weights of its slots once each, and nothing else. */
  lemma IntendedRowUses(wires: seq<Wire>, base: nat, types: int, i: nat, p: int)
    requires i < |wires| && (types == 1 || types == 2)
    ensures Uses(Repeat(|wires|, PairGate(wires, base, types, Intended, i)), p) ==
      Once(base + i * (|wires| - 1), base + i * (|wires| - 1) + (|wires| - 1), p)
  {
    var n := |wires|;
    var row := i * (n - 1);
    var block := PairGate(wires, base, types, Intended, i);
    if base + row <= p < base + row + (n - 1) {
      var r := p - base - row;
      var j := if r < i then r else r + 1;
      var m := n - 1 - j;
      assert Slot(Intended, n, i, j) == row + r;
      forall m' | 0 <= m' < n
        ensures Uses(block(m'), p) == if m' == m then 1 else 0
      {
        IntendedPairGateUses(wires, base, types, i, m', p);
        var j' := n - 1 - m';
        if m' != m && j' != i {
          IntendedSlotsApart(n, i, j, j');
        }
      }
      RepeatUsesOnly(n, block, m, p, 1);
    } else {
      forall m' | 0 <= m' < n
        ensures Uses(block(m'), p) == 0
      {
        IntendedPairGateUses(wires, base, types, i, m', p);
        var j' := n - 1 - m';
        if j' != i {
          IntendedSlotInRow(n, i, j');
        }
      }
      RepeatUsesNone(n, block, p);
    }
  }

  /** With the intended slots the controlled rotations of a layer read the weights
      base .. base + n(n - 1) - 1 once each. */
  lemma IntendedEntanglingUses(wires: seq<Wire>, base: nat, types: int, p: int)
    requires types == 1 || types == 2
    ensures Uses(Entangling(wires, base, types, Intended), p) ==
      Once(base, base + |wires| * (|wires| - 1), p)
  {
    var n := |wires|;
    var block := PairRow(wires, base, types, Intended);
    if n > 0 {
      forall k | 0 <= k < n
        ensures Uses(block(k), p) == Once(Offset(base, n - 1 - k, n - 1), Offset(base, n - k, n - 1), p)
      {
        IntendedRowUses(wires, base, types, n - 1 - k, p);
        OffsetStep(base, n - 1 - k, n - 1);
      }
      RepeatUsesDown(n, block, base, n - 1, n, p);
    }
  }

  /** As written, the controlled rotations of a layer never read weight base, the first
      of their slots. */
  lemma AsWrittenEntanglingSkipsFirst(wires: seq<Wire>, base: nat, types: int)
    requires |wires| >= 2
    ensures Uses(Entangling(wires, base, types, AsWritten), base) == 0
  {
    var n := |wires|;
    AsWrittenSlotsCollide(n);
    var rows := PairRow(wires, base, types, AsWritten);
    forall k | 0 <= k < n
      ensures Uses(rows(k), base) == 0
    {
      var i := n - 1 - k;
      var block := PairGate(wires, base, types, AsWritten, i);
      forall m | 0 <= m < n
        ensures Uses(block(m), base) == 0
      {
        var j := n - 1 - m;
        if j != i {
          var g := Controlled(types, W(base + Slot(AsWritten, n, i, j)), wires[i], wires[j]);
          assert block(m) == g;
          if g != [] {
            UsesSingle(g[0], base);
          }
        }
      }
      RepeatUsesNone(n, block, base);
    }
    RepeatUsesNone(n, rows, base);
  }

  /** On two wires [a, b], as written, control row i issues its one CRX (types 1) with
      weight base + 1 whichever i it is. */
  lemma TwoWireRow(a: Wire, b: Wire, base: nat, i: nat)
    requires i < 2
    ensures Repeat(2, PairGate([a, b], base, 1, AsWritten, i)) ==
      [Gate(CRX, [[a, b][i], [a, b][1 - i]], W(base + 1))]
  {
    var wires := [a, b];
    var row := PairGate(wires, base, 1, AsWritten, i);
    assert Slot(AsWritten, 2, i, 1 - i) == 1;
    PairGateAt(wires, base, 1, AsWritten, i, 0);
    PairGateAt(wires, base, 1, AsWritten, i, 1);
    if i == 0 {
      assert row(0) == [Gate(CRX, [a, b], W(base + 1))] && row(1) == [];
      assert Repeat(1, row) == [Gate(CRX, [a, b], W(base + 1))];
    } else {
      assert row(0) == [] && row(1) == [Gate(CRX, [b, a], W(base + 1))];
      assert Repeat(1, row) == [];
    }
  }

  /** On two wires [a, b] the controlled rotations, as written, are the two CRX (types 1)
      with the same weight base + 1: weight base + 1 is read twice and weight base not
      at all. */
  lemma TwoWireEntanglingAsWritten(a: Wire, b: Wire, base: nat)
    ensures Entangling([a, b], base, 1, AsWritten) ==
      [Gate(CRX, [b, a], W(base + 1)), Gate(CRX, [a, b], W(base + 1))]
    ensures Uses(Entangling([a, b], base, 1, AsWritten), base + 1) == 2
    ensures Uses(Entangling([a, b], base, 1, AsWritten), base) == 0
  {
    var wires := [a, b];
    var g1 := Gate(CRX, [b, a], W(base + 1));
    var g0 := Gate(CRX, [a, b], W(base + 1));
    var rows := PairRow(wires, base, 1, AsWritten);
    TwoWireRow(a, b, base, 1);
    TwoWireRow(a, b, base, 0);
    assert rows(0) == [g1] && rows(1) == [g0];
    assert Repeat(1, rows) == [g1];
    assert Entangling(wires, base, 1, AsWritten) == [g1] + [g0];
    UsesConcat([g1], [g0], base + 1);
    UsesConcat([g1], [g0], base);
    UsesSingle(g1, base + 1);
    UsesSingle(g0, base + 1);
    UsesSingle(g1, base);
    UsesSingle(g0, base);
  }

  /** The first m passes of the inner loop for control wire i issue one gate each,
      except the pass whose target is i itself. */
  lemma {:induction false} PairRowPrefixLength(wires: seq<Wire>, base: nat, types: int, rule: SlotRule, i: nat, m: nat)
    requires i < |wires| && m <= |wires| && (types == 1 || types == 2)
    ensures |Repeat(m, PairGate(wires, base, types, rule, i))| == if |wires| - 1 - i < m then m - 1 else m
  {
    if m > 0 {
      PairRowPrefixLength(wires, base, types, rule, i, m - 1);
      PairGateAt(wires, base, types, rule, i, |wires| - m);
    }
  }

  /** For types 1 and 2 a control row issues n - 1 gates, the rotation to target j != i
      after the |{j' > j : j' != i}| rotations to the targets above it. */
  lemma PairRowAt(wires: seq<Wire>, base: nat, types: int, rule: SlotRule, i: nat, j: nat)
    requires i < |wires| && j < |wires| && i != j && (types == 1 || types == 2)
    ensures var row := Repeat(|wires|, PairGate(wires, base, types, rule, i));
      var at := (|wires| - 1 - j) - (if j < i then 1 else 0);
      |row| == |wires| - 1 && at < |row| &&
      [row[at]] == Controlled(types, W(base + Slot(rule, |wires|, i, j)), wires[i], wires[j])
  {
    var n := |wires|;
    var block := PairGate(wires, base, types, rule, i);
    PairRowPrefixLength(wires, base, types, rule, i, n);
    PairRowPrefixLength(wires, base, types, rule, i, n - 1 - j);
    PairGateAt(wires, base, types, rule, i, j);
    RepeatSingleAt(n, block, n - 1 - j);
  }

  /** For types 1 and 2 the controlled rotations of a layer are n(n - 1) gates. */
  lemma EntanglingLength(wires: seq<Wire>, base: nat, types: int, rule: SlotRule)
    requires types == 1 || types == 2
    ensures |Entangling(wires, base, types, rule)| == |wires| * (|wires| - 1)
  {
    var n := |wires|;
    if n > 0 {
      var rows := PairRow(wires, base, types, rule);
      forall k | 0 <= k < n
        ensures |rows(k)| == n - 1
      {
        PairRowPrefixLength(wires, base, types, rule, n - 1 - k, n);
      }
      RepeatLength(n, rows, n - 1);
    }
  }

  /** (n - 1 - i)(n - 1) + (n - 1 - j) - [j < i]: see EntanglingAt. */
  function PairIndex(n: nat, i: nat, j: nat): int {
    (n - 1 - i) * (n - 1) + (n - 1 - j) - (if j < i then 1 else 0)
  }

  /** For types 1 and 2 the rotation from wire i to wire j != i is gate
      (n - 1 - i)(n - 1) + (n - 1 - j) - [j < i] of the entangling block: the control rows
      run from wire n - 1 down, n - 1 gates each, and each row runs its targets down,
      skipping its own wire. */
  lemma EntanglingAt(wires: seq<Wire>, base: nat, types: int, rule: SlotRule, i: nat, j: nat)
    requires i < |wires| && j < |wires| && i != j && (types == 1 || types == 2)
    ensures 0 <= PairIndex(|wires|, i, j) < |Entangling(wires, base, types, rule)|
    ensures [Entangling(wires, base, types, rule)[PairIndex(|wires|, i, j)]] ==
      Controlled(types, W(base + Slot(rule, |wires|, i, j)), wires[i], wires[j])
  {
    var n := |wires|;
    var rows := PairRow(wires, base, types, rule);
    forall k | 0 <= k < n
      ensures |rows(k)| == n - 1
    {
      PairRowPrefixLength(wires, base, types, rule, n - 1 - k, n);
    }
    var row := Repeat(n, PairGate(wires, base, types, rule, i));
    var pos := (n - 1 - j) - (if j < i then 1 else 0);
    var k := n - 1 - i;
    PairRowAt(wires, base, types, rule, i, j);
    assert rows(k) == row;
    RepeatAt(n, rows, n - 1, k, pos);
    assert Entangling(wires, base, types, rule) == Repeat(n, rows);
    MulNat(k, n - 1);
    assert PairIndex(n, i, j) == k * (n - 1) + pos;
  }

  /** The gates a layer issues: n(n + 3) for types 1 and 2, the 4n rotations otherwise. */
  function LayerGates(n: nat, types: int): nat {
    if types == 1 || types == 2 then n * (n + 3) else 4 * n
  }

  /** Each of the three rotation blocks puts one gate on every wire it covers. */
  lemma RotationsLength(wires: seq<Wire>, d: nat, base: nat)
    requires d <= |wires|
    ensures |Rotations(wires, d, base)| == 2 * |wires|
  {
    var n := |wires|;
    var rzBase := base + n - d;
    var a := (i: nat) requires i < d => [Rot(RX, wires[i], X(i))];
    var b := (i: nat) requires i < n - d => [Rot(RX, wires[i + d], W(base + i))];
    var c := (i: nat) requires i < n => [Rot(RZ, wires[i], W(rzBase + i))];
    RepeatLength(d, a, 1);
    RepeatLength(n - d, b, 1);
    RepeatLength(n, c, 1);
    assert DataRX(wires, d) == Repeat(d, a);
    assert WeightRX(wires, d, base) == Repeat(n - d, b);
    assert RZRow(wires, rzBase) == Repeat(n, c);
  }

  /** One layer of VQC issues LayerGates(n, types) gates, wherever its weights start. */
  lemma LayerLength(wires: seq<Wire>, d: nat, base: nat, types: int, rule: SlotRule)
    requires d <= |wires|
    ensures |LayerFrom(wires, d, base, types, rule)| == LayerGates(|wires|, types)
  {
    var n := |wires|;
    var eBase := base + 2 * n - d;
    RotationsLength(wires, d, base);
    RotationsLength(wires, d, base + n * (n + 1) - d);
    if types == 1 || types == 2 {
      EntanglingLength(wires, eBase, types, rule);
      assert n * (n - 1) + 4 * n == n * (n + 3);
    } else {
      OtherTypesNoEntangling(wires, eBase, types, rule);
    }
  }

  /** VQC issues LayerGates(n, types) gates per layer. */
  lemma GateCount(wires: seq<Wire>, d: nat, layers: nat, types: int, rule: SlotRule)
    requires d <= |wires|
    ensures |Gates(wires, d, layers, types, rule)| == layers * LayerGates(|wires|, types)
  {
    var layer := Layer(wires, d, types, rule);
    forall l | 0 <= l < layers
      ensures |layer(l)| == LayerGates(|wires|, types)
    {
      LayerLength(wires, d, LayerBase(|wires|, d, l), types, rule);
    }
    RepeatLength(layers, layer, LayerGates(|wires|, types));
  }

  lemma DataRXUses(wires: seq<Wire>, d: nat, p: int)
    requires d <= |wires|
    ensures Uses(DataRX(wires, d), p) == 0
  {
    var block := (i: nat) requires i < d => [Rot(RX, wires[i], X(i))];
    forall j | 0 <= j < d
      ensures Uses(block(j), p) == 0
    {
      UsesSingle(block(j)[0], p);
    }
    RepeatUsesNone(d, block, p);
  }

  lemma WeightRXUses(wires: seq<Wire>, d: nat, base: nat, p: int)
    requires d <= |wires|
    ensures Uses(WeightRX(wires, d, base), p) == Once(base, base + |wires| - d, p)
  {
    var block := (i: nat) requires i < |wires| - d => [Rot(RX, wires[i + d], W(base + i))];
    forall j | 0 <= j < |wires| - d
      ensures Uses(block(j), p) == Once(Offset(base, j, 1), Offset(base, j + 1, 1), p)
    {
      var g := Rot(RX, wires[j + d], W(base + j));
      assert block(j) == [g];
      UsesSingle(g, p);
    }
    RepeatUses(|wires| - d, block, base, 1, p);
  }

  lemma RZRowUses(wires: seq<Wire>, base: nat, p: int)
    ensures Uses(RZRow(wires, base), p) == Once(base, base + |wires|, p)
  {
    var block := (i: nat) requires i < |wires| => [Rot(RZ, wires[i], W(base + i))];
    forall j | 0 <= j < |wires|
      ensures Uses(block(j), p) == Once(Offset(base, j, 1), Offset(base, j + 1, 1), p)
    {
      UsesSingle(block(j)[0], p);
    }
    RepeatUses(|wires|, block, base, 1, p);
  }

  /** Where the five weight blocks of a layer meet, relative to its first weight. */
  lemma LayerBounds(n: nat, d: nat)
    requires d <= n
    ensures 2 * n - d + n * (n - 1) == n * (n + 1) - d
    ensures n * (n + 1) - d + (n - d) == n * (n + 2) - 2 * d
    ensures n * (n + 2) - 2 * d + n == n * (n + 3) - 2 * d == LayerWeights(n, d)
  {
    if n > 0 {
      assert n * (n + 1) == n * (n - 1) + 2 * n;
    }
    assert n * (n + 2) == n * (n + 1) + n;
    assert n * (n + 3) == n * (n + 2) + n;
  }

  /** The rotations read the 2n - d weights from `base` on once each. */
  lemma RotationsUses(wires: seq<Wire>, d: nat, base: nat, p: int)
    requires d <= |wires|
    ensures Uses(Rotations(wires, d, base), p) == Once(base, base + 2 * |wires| - d, p)
  {
    var n := |wires|;
    var a := DataRX(wires, d);
    var b := WeightRX(wires, d, base);
    var c := RZRow(wires, base + n - d);
    DataRXUses(wires, d, p);
    WeightRXUses(wires, d, base, p);
    RZRowUses(wires, base + n - d, p);
    UsesConcat(a + b, c, p);
    UsesConcat(a, b, p);
    OnceSplit(base, base + n - d, base + 2 * n - d, p);
  }

  lemma FirstHalfUses(wires: seq<Wire>, d: nat, base: nat, types: int, p: int)
    requires d <= |wires| && (types == 1 || types == 2)
    ensures Uses(FirstHalf(wires, d, base, types, Intended), p) ==
      Once(base, base + |wires| * (|wires| + 1) - d, p)
  {
    var n := |wires|;
    var mid := base + 2 * n - d;
    var hi := base + n * (n + 1) - d;
    LayerBounds(n, d);
    assert mid + n * (n - 1) == hi;
    RotationsUses(wires, d, base, p);
    IntendedEntanglingUses(wires, mid, types, p);
    UsesConcat(Rotations(wires, d, base), Entangling(wires, mid, types, Intended), p);
    assert FirstHalf(wires, d, base, types, Intended) == Rotations(wires, d, base) + Entangling(wires, mid, types, Intended);
    OnceSplit(base, mid, hi, p);
  }

  lemma SecondHalfUses(wires: seq<Wire>, d: nat, base: nat, p: int)
    requires d <= |wires|
    ensures Uses(SecondHalf(wires, d, base), p) ==
      Once(base + |wires| * (|wires| + 1) - d, base + LayerWeights(|wires|, d), p)
  {
    var n := |wires|;
    var lo := base + n * (n + 1) - d;
    LayerBounds(n, d);
    assert lo + 2 * n - d == base + LayerWeights(n, d);
    RotationsUses(wires, d, lo, p);
  }

  /** With the intended slots a layer whose weights start at `base` reads the weights
      base .. base + w - 1 (w = LayerWeights(n, d)) once each, and no other. */
  lemma IntendedLayerUses(wires: seq<Wire>, d: nat, types: int, base: nat, p: int)
    requires d <= |wires| && (types == 1 || types == 2)
    ensures Uses(LayerFrom(wires, d, base, types, Intended), p) == Once(base, base + LayerWeights(|wires|, d), p)
  {
    var n := |wires|;
    LayerWeightsNat(n, d);
    FirstHalfUses(wires, d, base, types, p);
    SecondHalfUses(wires, d, base, p);
    UsesConcat(FirstHalf(wires, d, base, types, Intended), SecondHalf(wires, d, base), p);
    OnceSplit(base, base + n * (n + 1) - d, base + LayerWeights(n, d), p);
  }

  /** With the intended slots the circuit reads every weight it demands exactly once, and
      no other. */
  lemma IntendedReadsEachWeightOnce(wires: seq<Wire>, d: nat, layers: nat, types: int, p: int)
    requires d <= |wires| && (types == 1 || types == 2)
    ensures Uses(Gates(wires, d, layers, types, Intended), p) == Once(0, Needed(|wires|, d, layers), p)
  {
    var n := |wires|;
    LayerWeightsNat(n, d);
    var size: nat := LayerWeights(n, d);
    var block := Layer(wires, d, types, Intended);
    forall l: nat | l < layers
      ensures Uses(block(l), p) == Once(Offset(0, l, size), Offset(0, l + 1, size), p)
    {
      IntendedLayerUses(wires, d, types, LayerBase(n, d, l), p);
      OffsetStep(0, l, size);
    }
    RepeatUses(layers, block, 0, size, p);
  }

  /** Every slot either rule gives lies among the n(n - 1) reserved for the layer's
      controlled rotations. */
  lemma SlotInRange(rule: SlotRule, n: nat, i: nat, j: nat)
    requires i < n && j < n && i != j
    ensures Slot(rule, n, i, j) < n * (n - 1)
  {
    assert n * (n - 1) == (n - 1) * (n - 1) + (n - 1);
    if i < n - 1 {
      assert i * (n - 1) + (n - 1) <= (n - 1) * (n - 1) by {
        MulNat(n - 1 - i, n - 1);
        assert (n - 1) * (n - 1) == i * (n - 1) + (n - 1 - i) * (n - 1);
        assert (n - 1 - i) * (n - 1) >= n - 1;
      }
    }
  }

  /** Weights outside the reserved slots are never read by a layer's controlled
      rotations. */
  lemma EntanglingOutside(wires: seq<Wire>, base: nat, types: int, rule: SlotRule, p: int)
    requires p < base || p >= base + |wires| * (|wires| - 1)
    ensures Uses(Entangling(wires, base, types, rule), p) == 0
  {
    var n := |wires|;
    var rows := PairRow(wires, base, types, rule);
    forall k | 0 <= k < n
      ensures Uses(rows(k), p) == 0
    {
      var i := n - 1 - k;
      var block := PairGate(wires, base, types, rule, i);
      forall m | 0 <= m < n
        ensures Uses(block(m), p) == 0
      {
        var j := n - 1 - m;
        if j != i {
          SlotInRange(rule, n, i, j);
          var g := Controlled(types, W(base + Slot(rule, n, i, j)), wires[i], wires[j]);
          assert block(m) == g;
          if g != [] {
            UsesSingle(g[0], p);
          }
        }
      }
      RepeatUsesNone(n, block, p);
    }
    RepeatUsesNone(n, rows, p);
  }

  /** Types other than 1 and 2 issue no controlled rotation at all. */
  lemma OtherTypesNoEntangling(wires: seq<Wire>, base: nat, types: int, rule: SlotRule)
    requires types != 1 && types != 2
    ensures Entangling(wires, base, types, rule) == []
  {
    var n := |wires|;
    var rows := PairRow(wires, base, types, rule);
    forall k | 0 <= k < n
      ensures rows(k) == []
    {
      var block := PairGate(wires, base, types, rule, n - 1 - k);
      forall m | 0 <= m < n
        ensures block(m) == []
      {
        var i := n - 1 - k;
        var j := n - 1 - m;
        if j != i {
          assert block(m) == Controlled(types, W(base + Slot(rule, n, i, j)), wires[i], wires[j]);
        }
      }
      RepeatEmpty(n, block);
    }
    RepeatEmpty(n, rows);
  }

  lemma {:induction false} RepeatEmpty(k: nat, block: nat --> seq<Gate>)
    requires forall j :: 0 <= j < k ==> block.requires(j)
    requires forall j {:trigger block(j)} :: 0 <= j < k ==> block(j) == []
    ensures Repeat(k, block) == []
  {
    if k > 0 {
      RepeatEmpty(k - 1, block);
    }
  }

  lemma FirstHalfOutside(wires: seq<Wire>, d: nat, base: nat, types: int, rule: SlotRule, p: int)
    requires d <= |wires|
    requires p < base || p >= base + |wires| * (|wires| + 1) - d
    ensures Uses(FirstHalf(wires, d, base, types, rule), p) == 0
  {
    var n := |wires|;
    var mid := base + 2 * n - d;
    LayerBounds(n, d);
    assert mid + n * (n - 1) == base + n * (n + 1) - d;
    assert n * (n - 1) >= 0 by {
      if n > 0 {
        MulNat(n, n - 1);
      }
    }
    RotationsUses(wires, d, base, p);
    assert Uses(Rotations(wires, d, base), p) == 0;
    EntanglingOutside(wires, mid, types, rule, p);
    UsesConcat(Rotations(wires, d, base), Entangling(wires, mid, types, rule), p);
    assert FirstHalf(wires, d, base, types, rule) == Rotations(wires, d, base) + Entangling(wires, mid, types, rule);
  }

  /** A layer reads no weight outside its own slice base .. base + w - 1, whatever the
      slot rule. */
  lemma LayerOutside(wires: seq<Wire>, d: nat, types: int, rule: SlotRule, base: nat, p: int)
    requires d <= |wires|
    requires p < base || p >= base + LayerWeights(|wires|, d)
    ensures Uses(LayerFrom(wires, d, base, types, rule), p) == 0
  {
    var n := |wires|;
    LayerBounds(n, d);
    FirstHalfOutside(wires, d, base, types, rule, p);
    SecondHalfUses(wires, d, base, p);
    assert Uses(SecondHalf(wires, d, base), p) == 0;
    UsesConcat(FirstHalf(wires, d, base, types, rule), SecondHalf(wires, d, base), p);
  }

  /** As written, a layer whose weights start at `base` never reads weight base + 2n - d,
      the first of its controlled rotation slots (n >= 2). */
  lemma AsWrittenLayerSkips(wires: seq<Wire>, d: nat, types: int, base: nat)
    requires d <= |wires| && |wires| >= 2
    ensures Uses(LayerFrom(wires, d, base, types, AsWritten), base + 2 * |wires| - d) == 0
  {
    var n := |wires|;
    var mid := base + 2 * n - d;
    LayerBounds(n, d);
    var hi := base + n * (n + 1) - d;
    assert mid < hi by {
      assert n * (n - 1) >= n - 1 by { MulNat(n, n - 2); assert n * (n - 1) == n * (n - 2) + n; }
    }
    RotationsUses(wires, d, base, mid);
    AsWrittenEntanglingSkipsFirst(wires, mid, types);
    RotationsUses(wires, d, hi, mid);
    assert Uses(SecondHalf(wires, d, base), mid) == 0;
    UsesConcat(Rotations(wires, d, base), Entangling(wires, mid, types, AsWritten), mid);
    assert FirstHalf(wires, d, base, types, AsWritten) == Rotations(wires, d, base) + Entangling(wires, mid, types, AsWritten);
    UsesConcat(FirstHalf(wires, d, base, types, AsWritten), SecondHalf(wires, d, base), mid);
  }

  /** Weight l w + 2n - d of layer l < n_layers lies below the count VQC checks (n >= 2). */
  lemma CouplerWeightDemanded(n: nat, d: nat, layers: nat, l: nat)
    requires d <= n && n >= 2 && l < layers
    ensures LayerBase(n, d, l) + 2 * n - d < Needed(n, d, layers)
  {
    LayerWeightsNat(n, d);
    var size: nat := LayerWeights(n, d);
    assert 2 * n - d < size by {
      LayerBounds(n, d);
      assert n * (n + 1) >= 2 * n by { MulNat(n, n - 1); assert n * (n + 1) == n * (n - 1) + 2 * n; }
    }
    SliceAfter(l, layers - l - 1, size);
  }

  /** As written, no layer j reads weight l w + 2n - d (n >= 2). */
  lemma AsWrittenLayerJSkips(wires: seq<Wire>, d: nat, types: int, l: nat, j: nat)
    requires d <= |wires| && |wires| >= 2
    ensures Uses(Layer(wires, d, types, AsWritten)(j), LayerBase(|wires|, d, l) + 2 * |wires| - d) == 0
  {
    var n := |wires|;
    var q := LayerBase(n, d, l) + 2 * n - d;
    if j == l {
      AsWrittenLayerSkips(wires, d, types, LayerBase(n, d, l));
    } else {
      LayerWeightsNat(n, d);
      var size: nat := LayerWeights(n, d);
      assert 2 * n - d < size by {
        LayerBounds(n, d);
        assert n * (n + 1) >= 2 * n by { MulNat(n, n - 1); assert n * (n + 1) == n * (n - 1) + 2 * n; }
      }
      SlicesApart(j, l, size);
      LayerOutside(wires, d, types, AsWritten, LayerBase(n, d, j), q);
    }
  }

  /** As written, for n >= 2 every layer l < n_layers leaves a weight it demands unread:
      weight l w + 2n - d lies below the count VQC checks and no gate reads it. */
  lemma AsWrittenSkipsCouplerWeight(wires: seq<Wire>, d: nat, layers: nat, types: int, l: nat)
    requires d <= |wires| && |wires| >= 2 && l < layers
    ensures LayerBase(|wires|, d, l) + 2 * |wires| - d < Needed(|wires|, d, layers)
    ensures Uses(Gates(wires, d, layers, types, AsWritten), LayerBase(|wires|, d, l) + 2 * |wires| - d) == 0
  {
    var n := |wires|;
    var q := LayerBase(n, d, l) + 2 * n - d;
    CouplerWeightDemanded(n, d, layers, l);
    var block := Layer(wires, d, types, AsWritten);
    forall j: nat | j < layers
      ensures Uses(block(j), q) == 0
    {
      AsWrittenLayerJSkips(wires, d, types, l, j);
    }
    RepeatUsesNone(layers, block, q);
  }

  /** pars_VQC(x_dim, n_wires, n_layers, types): the weight VQC demands, each equal to
      one value drawn uniformly from [0, 2 pi), taken here as the parameter `draw`.
      numpy refuses a negative length. */
  function ParsVqc(xDim: nat, n: nat, layers: nat, draw: real): (r: Result<seq<real>>)
    ensures layers * LayerWeights(n, xDim) < 0 <==> r.Err?
    ensures r.Err? ==> r.error == ValueError(NegativeDimension)
    ensures r.Ok? ==> |r.value| == layers * LayerWeights(n, xDim)
    ensures r.Ok? ==> forall k :: 0 <= k < |r.value| ==> r.value[k] == draw
  {
    var count := layers * (n * (n + 3) - 2 * xDim);
    if count < 0 then Err(ValueError(NegativeDimension)) else Ok(seq(count, _ => draw))
  }
}
