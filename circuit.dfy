/** Gates with symbolic angles, the gate tape every embedding appends to,
    and the facts about building a tape block by block that every embedding uses.

    An angle is kept symbolic: `W(i)` stands for `weights[i]` of a flat weight
    vector, `W2(l, i)` for `weights[l][i]` of a per-layer weight array, `X(i)` for
    `x[i]`, `XScalar` for a scalar input `x`. The circuits' physical meaning (the
    unitaries) is not modelled; what is modelled is which gate is issued, on which
    wires, with which parameter. */
module Circuit {

  /** A wire label, as it appears in the `wires` list handed to an embedding. */
  type Wire = int

  datatype Kind = RX | RY | RZ | H | CNOT | CRX | CRZ | CZ

  datatype Angle =
    | NoAngle                   // H, CNOT and CZ carry no parameter
    | W(i: nat)                 // weights[i]
    | W2(l: nat, i: nat)        // weights[l][i]
    | X(i: nat)                 // x[i]
    | XScalar                   // the scalar input x
    | PiOver4                   // the constant pi / 4
    | Two(a: Angle)             // 2 * a
    | Prod(a: Angle, b: Angle)  // a * b

  datatype Gate = Gate(kind: Kind, wires: seq<Wire>, angle: Angle)

  /** A single-wire gate. */
  function Rot(k: Kind, w: Wire, a: Angle): Gate {
    Gate(k, [w], a)
  }

  function Hadamard(w: Wire): Gate {
    Gate(H, [w], NoAngle)
  }

  predicate IsRotation(k: Kind) {
    k == RX || k == RY || k == RZ
  }

  /** The blocks 0, 1, ..., k - 1 issued one after the other: what a loop
      `for j in range(k)` issuing `block(j)` in its body leaves on the tape. */
  function Repeat(k: nat, block: nat --> seq<Gate>): seq<Gate>
    requires forall j :: 0 <= j < k ==> block.requires(j)
  {
    if k == 0 then [] else Repeat(k - 1, block) + block(k - 1)
  }

  /** Issuing block k after blocks 0 .. k - 1 leaves blocks 0 .. k on the tape. */
  lemma RepeatNext(tape: seq<Gate>, k: nat, block: nat --> seq<Gate>)
    requires forall j :: 0 <= j <= k ==> block.requires(j)
    ensures (tape + Repeat(k, block)) + block(k) == tape + Repeat(k + 1, block)
  {
  }

  lemma AppendAssoc(a: seq<Gate>, b: seq<Gate>, c: seq<Gate>)
    ensures (a + b) + c == a + (b + c)
  {
  }

  lemma {:induction false} RepeatLength(k: nat, block: nat --> seq<Gate>, size: nat)
    requires forall j :: 0 <= j < k ==> block.requires(j) && |block(j)| == size
    ensures |Repeat(k, block)| == k * size
  {
    if k > 0 {
      RepeatLength(k - 1, block, size);
      assert (k - 1) * size + size == k * size;
    }
  }

  /** When every block has the same size, block j sits at offset j * size. */
  lemma {:induction false} RepeatBlockAt(k: nat, block: nat --> seq<Gate>, size: nat, j: nat)
    requires forall i :: 0 <= i < k ==> block.requires(i) && |block(i)| == size
    requires j < k
    ensures j * size + size <= k * size == |Repeat(k, block)|
    ensures Repeat(k, block)[j * size .. j * size + size] == block(j)
  {
    RepeatLength(k, block, size);
    RepeatLength(k - 1, block, size);
    var prefix := Repeat(k - 1, block);
    assert (k - 1) * size + size == k * size;
    if j < k - 1 {
      RepeatBlockAt(k - 1, block, size, j);
      assert j * size + size <= (k - 1) * size by {
        assert (k - 1) * size == j * size + (k - 1 - j) * size;
      }
      assert Repeat(k, block)[j * size .. j * size + size] == prefix[j * size .. j * size + size];
    } else {
      assert Repeat(k, block)[j * size .. j * size + size] == block(j);
    }
  }

  /** The blocks 0 .. m - 1 start the blocks 0 .. k - 1, for m <= k. */
  lemma {:induction false} RepeatPrefix(k: nat, block: nat --> seq<Gate>, m: nat)
    requires forall j :: 0 <= j < k ==> block.requires(j)
    requires m <= k
    ensures |Repeat(m, block)| <= |Repeat(k, block)|
    ensures Repeat(k, block)[..|Repeat(m, block)|] == Repeat(m, block)
  {
    if m < k {
      RepeatPrefix(k - 1, block, m);
      var p := Repeat(k - 1, block);
      assert Repeat(k, block)[..|p|] == p;
      assert Repeat(k, block)[..|Repeat(m, block)|] == p[..|Repeat(m, block)|];
    }
  }

  /** A one-gate block m sits right after the blocks before it. */
  lemma RepeatSingleAt(k: nat, block: nat --> seq<Gate>, m: nat)
    requires forall j :: 0 <= j < k ==> block.requires(j)
    requires m < k && |block(m)| == 1
    ensures |Repeat(m, block)| < |Repeat(k, block)|
    ensures Repeat(k, block)[|Repeat(m, block)|] == block(m)[0]
  {
    RepeatPrefix(k, block, m + 1);
    var q := Repeat(m + 1, block);
    assert q[|Repeat(m, block)|] == block(m)[0];
    assert Repeat(k, block)[..|q|][|Repeat(m, block)|] == q[|Repeat(m, block)|];
  }

  /** Every gate of a run of blocks comes from one of the blocks. */
  lemma {:induction false} RepeatIn(k: nat, block: nat --> seq<Gate>, g: Gate) returns (j: nat)
    requires forall m :: 0 <= m < k ==> block.requires(m)
    requires g in Repeat(k, block)
    ensures j < k && g in block(j)
  {
    if g in block(k - 1) {
      j := k - 1;
    } else {
      j := RepeatIn(k - 1, block, g);
    }
  }

  /** Gate i of block j of a run of equal-size blocks. */
  lemma RepeatAt(k: nat, block: nat --> seq<Gate>, size: nat, j: nat, i: nat)
    requires forall m :: 0 <= m < k ==> block.requires(m) && |block(m)| == size
    requires j < k && i < size
    ensures j * size + i < |Repeat(k, block)|
    ensures Repeat(k, block)[j * size + i] == block(j)[i]
  {
    RepeatBlockAt(k, block, size, j);
    assert Repeat(k, block)[j * size .. j * size + size][i] == block(j)[i];
  }

  lemma PrefixAt(a: seq<Gate>, b: seq<Gate>, i: nat)
    requires i < |a|
    ensures (a + b)[i] == a[i]
  {
  }

  lemma SuffixAt(a: seq<Gate>, b: seq<Gate>, i: nat)
    requires i < |b|
    ensures (a + b)[|a| + i] == b[i]
  {
  }

  /** Every row of a per-layer weight array has a weight for each of n wires. */
  predicate RowsCover(weights: seq<seq<real>>, n: nat) {
    forall l :: 0 <= l < |weights| ==> |weights[l]| >= n
  }

  /** How many times an angle reads weights[i] of a flat weight vector. */
  function AngleUses(a: Angle, i: int): nat {
    match a
    case W(j) => if j == i then 1 else 0
    case Two(b) => AngleUses(b, i)
    case Prod(b, c) => AngleUses(b, i) + AngleUses(c, i)
    case _ => 0
  }

  /** How many gates of the tape read weights[i]. */
  function Uses(gs: seq<Gate>, i: int): nat {
    if gs == [] then 0 else Uses(gs[..|gs| - 1], i) + AngleUses(gs[|gs| - 1].angle, i)
  }

  /** The uses of weight i by a tape that reads the weights lo .. hi - 1 once each and
      no other weight. */
  function Once(lo: int, hi: int, i: int): nat {
    if lo <= i < hi then 1 else 0
  }

  lemma {:induction false} UsesConcat(a: seq<Gate>, b: seq<Gate>, i: int)
    ensures Uses(a + b, i) == Uses(a, i) + Uses(b, i)
  {
    if b == [] {
      assert a + b == a;
    } else {
      assert (a + b)[..|a + b| - 1] == a + b[..|b| - 1];
      assert (a + b)[|a + b| - 1] == b[|b| - 1];
      UsesConcat(a, b[..|b| - 1], i);
    }
  }

  lemma UsesSingle(g: Gate, i: int)
    ensures Uses([g], i) == AngleUses(g.angle, i)
  {
    assert [g][..0] == [];
  }

  /** Where block j of a run of equal-size blocks starts. */
  function Offset(base: int, j: int, size: int): int {
    base + j * size
  }

  lemma OffsetStep(base: int, j: nat, size: nat)
    ensures base <= Offset(base, j, size) <= Offset(base, j + 1, size) == Offset(base, j, size) + size
  {
    assert j * size >= 0;
    assert (j + 1) * size == j * size + size;
  }

  /** If block j reads weights Offset(base, j, size) .. Offset(base, j + 1, size) - 1 once
      each and nothing else, the k blocks read base .. Offset(base, k, size) - 1 once each
      and nothing else. Stated for one weight index i. */
  lemma {:induction false} RepeatUses(k: nat, block: nat --> seq<Gate>, base: int, size: nat, i: int)
    requires forall j :: 0 <= j < k ==> block.requires(j)
    requires forall j {:trigger block(j)} :: 0 <= j < k ==>
      Uses(block(j), i) == Once(Offset(base, j, size), Offset(base, j + 1, size), i)
    ensures Uses(Repeat(k, block), i) == Once(base, Offset(base, k, size), i)
  {
    if k > 0 {
      var prev := Repeat(k - 1, block);
      var last := block(k - 1);
      RepeatUses(k - 1, block, base, size, i);
      OffsetStep(base, k - 1, size);
      UsesConcat(prev, last, i);
      assert Repeat(k, block) == prev + last;
    }
  }

  /** As RepeatUses, with "at most once" for "once". */
  lemma {:induction false} RepeatUsesAtMost(k: nat, block: nat --> seq<Gate>, base: int, size: nat, i: int)
    requires forall j :: 0 <= j < k ==> block.requires(j)
    requires forall j {:trigger block(j)} :: 0 <= j < k ==>
      Uses(block(j), i) <= Once(Offset(base, j, size), Offset(base, j + 1, size), i)
    ensures Uses(Repeat(k, block), i) <= Once(base, Offset(base, k, size), i)
  {
    if k > 0 {
      var prev := Repeat(k - 1, block);
      var last := block(k - 1);
      RepeatUsesAtMost(k - 1, block, base, size, i);
      OffsetStep(base, k - 1, size);
      UsesConcat(prev, last, i);
      assert Repeat(k, block) == prev + last;
    }
  }

  /** A run whose last block is empty is the run without it. */
  lemma RepeatDropEmpty(k: nat, block: nat --> seq<Gate>)
    requires forall j :: 0 <= j < k ==> block.requires(j)
    requires k >= 1 && block(k - 1) == []
    ensures Repeat(k, block) == Repeat(k - 1, block)
  {
    assert Repeat(k - 1, block) + [] == Repeat(k - 1, block);
  }

  /** Blocks that never read weight i leave it unread. */
  lemma {:induction false} RepeatUsesNone(k: nat, block: nat --> seq<Gate>, i: int)
    requires forall j :: 0 <= j < k ==> block.requires(j)
    requires forall j {:trigger block(j)} :: 0 <= j < k ==> Uses(block(j), i) == 0
    ensures Uses(Repeat(k, block), i) == 0
  {
    if k > 0 {
      RepeatUsesNone(k - 1, block, i);
      UsesConcat(Repeat(k - 1, block), block(k - 1), i);
    }
  }

  /** If block m is the only block that reads weight i, the run reads it as often as
      block m does. */
  lemma {:induction false} RepeatUsesOnly(k: nat, block: nat --> seq<Gate>, m: nat, i: int, c: nat)
    requires forall j :: 0 <= j < k ==> block.requires(j)
    requires m < k
    requires forall j {:trigger block(j)} :: 0 <= j < k ==> Uses(block(j), i) == if j == m then c else 0
    ensures Uses(Repeat(k, block), i) == c
  {
    UsesConcat(Repeat(k - 1, block), block(k - 1), i);
    if m == k - 1 {
      RepeatUsesNone(k - 1, block, i);
    } else {
      RepeatUsesOnly(k - 1, block, m, i, c);
    }
  }

  /** Four gates read what their four angles read. */
  lemma FourUses(g0: Gate, g1: Gate, g2: Gate, g3: Gate, i: int)
    ensures Uses([g0, g1, g2, g3], i) ==
      AngleUses(g0.angle, i) + AngleUses(g1.angle, i) + AngleUses(g2.angle, i) + AngleUses(g3.angle, i)
  {
    assert [g0, g1, g2, g3] == [g0] + [g1] + [g2] + [g3];
    UsesConcat([g0] + [g1] + [g2], [g3], i);
    UsesConcat([g0] + [g1], [g2], i);
    UsesConcat([g0], [g1], i);
    UsesSingle(g0, i);
    UsesSingle(g1, i);
    UsesSingle(g2, i);
    UsesSingle(g3, i);
  }

  /** Two adjacent ranges of weights make one. */
  lemma OnceSplit(lo: int, mid: int, hi: int, i: int)
    requires lo <= mid <= hi
    ensures Once(lo, mid, i) + Once(mid, hi, i) == Once(lo, hi, i)
  {
  }

  /** As RepeatUses, for blocks that read their slices from the top down: block j reads
      the slice total - 1 - j. */
  lemma {:induction false} RepeatUsesDown(k: nat, block: nat --> seq<Gate>, base: int, size: nat, total: nat, i: int)
    requires k <= total
    requires forall j :: 0 <= j < k ==> block.requires(j)
    requires forall j {:trigger block(j)} :: 0 <= j < k ==>
      Uses(block(j), i) == Once(Offset(base, total - 1 - j, size), Offset(base, total - j, size), i)
    ensures Uses(Repeat(k, block), i) == Once(Offset(base, total - k, size), Offset(base, total, size), i)
  {
    if k > 0 {
      RepeatUsesDown(k - 1, block, base, size, total, i);
      OffsetStep(base, total - k, size);
      OffsetStep(base, total - k + 1, size);
      OnceMonotone(base, total - k + 1, total, size);
      OnceSplit(Offset(base, total - k, size), Offset(base, total - k + 1, size), Offset(base, total, size), i);
      UsesConcat(Repeat(k - 1, block), block(k - 1), i);
    }
  }

  lemma OnceMonotone(base: int, j: nat, k: nat, size: nat)
    requires j <= k
    ensures Offset(base, j, size) <= Offset(base, k, size)
  {
    assert k * size == j * size + (k - j) * size;
    assert (k - j) * size >= 0;
  }

  /** The slices [j * size, j * size + size) of two different blocks do not overlap. */
  lemma SlicesApart(j: nat, l: nat, size: nat)
    requires j != l
    ensures j * size + size <= l * size || l * size + size <= j * size
  {
    if j < l {
      SliceAfter(j, l - j - 1, size);
    } else {
      SliceAfter(l, j - l - 1, size);
    }
  }

  lemma SliceAfter(j: nat, k: nat, size: nat)
    ensures j * size + size <= (j + k + 1) * size
  {
    assert (j + k + 1) * size == j * size + k * size + size;
    assert k * size >= 0;
  }

  /** One gate of kind `kind` with angle `a` on wire i. */
  function EachWire(kind: Kind, wires: seq<Wire>, a: Angle): nat --> seq<Gate> {
    (i: nat) requires i < |wires| => [Rot(kind, wires[i], a)]
  }

  /** `for w in wires: kind(a, wires=w)`. */
  function OnEachWire(kind: Kind, wires: seq<Wire>, a: Angle): seq<Gate> {
    Repeat(|wires|, EachWire(kind, wires, a))
  }

  lemma OnEachWireLength(kind: Kind, wires: seq<Wire>, a: Angle)
    ensures |OnEachWire(kind, wires, a)| == |wires|
  {
    RepeatLength(|wires|, EachWire(kind, wires, a), 1);
  }

  lemma OnEachWireAt(kind: Kind, wires: seq<Wire>, a: Angle)
    ensures |OnEachWire(kind, wires, a)| == |wires|
    ensures forall i :: 0 <= i < |wires| ==> OnEachWire(kind, wires, a)[i] == Rot(kind, wires[i], a)
  {
    var block := EachWire(kind, wires, a);
    RepeatLength(|wires|, block, 1);
    forall i | 0 <= i < |wires|
      ensures OnEachWire(kind, wires, a)[i] == Rot(kind, wires[i], a)
    {
      RepeatBlockAt(|wires|, block, 1, i);
      assert OnEachWire(kind, wires, a)[i .. i + 1] == [Rot(kind, wires[i], a)];
    }
  }

  /** A row of gates whose angle does not read weight i does not read it. */
  lemma OnEachWireUses(kind: Kind, wires: seq<Wire>, a: Angle, i: int)
    requires AngleUses(a, i) == 0
    ensures Uses(OnEachWire(kind, wires, a), i) == 0
  {
    var block := EachWire(kind, wires, a);
    forall j | 0 <= j < |wires| ensures Uses(block(j), i) == Once(Offset(0, j, 0), Offset(0, j + 1, 0), i) {
      UsesSingle(block(j)[0], i);
    }
    RepeatUses(|wires|, block, 0, 0, i);
  }

  /** Wire i gets `kind(weights[l][i])`. */
  function RowOnWires(kind: Kind, wires: seq<Wire>, l: nat): nat --> seq<Gate> {
    (i: nat) requires i < |wires| => [Rot(kind, wires[i], W2(l, i))]
  }

  lemma RowOnWiresAt(kind: Kind, wires: seq<Wire>, l: nat)
    ensures |Repeat(|wires|, RowOnWires(kind, wires, l))| == |wires|
    ensures forall i :: 0 <= i < |wires| ==>
      Repeat(|wires|, RowOnWires(kind, wires, l))[i] == Rot(kind, wires[i], W2(l, i))
  {
    var block := RowOnWires(kind, wires, l);
    RepeatLength(|wires|, block, 1);
    forall i | 0 <= i < |wires|
      ensures Repeat(|wires|, block)[i] == Rot(kind, wires[i], W2(l, i))
    {
      RepeatBlockAt(|wires|, block, 1, i);
      assert Repeat(|wires|, block)[i .. i + 1] == [Rot(kind, wires[i], W2(l, i))];
    }
  }

  /** `for w in wires: kind(a, wires=w)`, issued onto `tape`. */
  method EmitOnEachWire(tape: seq<Gate>, kind: Kind, wires: seq<Wire>, a: Angle) returns (t: seq<Gate>)
    ensures t == tape + OnEachWire(kind, wires, a)
  {
    var block := EachWire(kind, wires, a);
    t := tape;
    for i := 0 to |wires|
      invariant t == tape + Repeat(i, block)
    {
      ghost var before := t;
      t := t + [Rot(kind, wires[i], a)];
      assert t == before + block(i);
      RepeatNext(tape, i, block);
    }
  }

  /** `for i in range(len(wires)): kind(weights[l][i], wires=wires[i])`, for a row that
      has a weight for every wire. */
  method EmitRowOnWires(tape: seq<Gate>, kind: Kind, wires: seq<Wire>, l: nat) returns (t: seq<Gate>)
    ensures t == tape + Repeat(|wires|, RowOnWires(kind, wires, l))
  {
    var block := RowOnWires(kind, wires, l);
    t := tape;
    for i := 0 to |wires|
      invariant t == tape + Repeat(i, block)
    {
      ghost var before := t;
      t := t + [Rot(kind, wires[i], W2(l, i))];
      assert t == before + block(i);
      RepeatNext(tape, i, block);
    }
  }
}

/** The exceptions the Python code raises, by kind and reason. */
module Errors {

  datatype Reason =
    | TooManyFeatures(wires: nat, features: nat)
    | WrongWeightCount(needed: nat, got: nat)
    | WrongCircuitId(id: int)
    | NegativeDimension
    | ProbsLengthMismatch(probs: nat, classSize: nat)
    | EmptyPopulation
    | BadProbabilities
    | UnknownImplementation

  datatype Error =
    | ValueError(reason: Reason)
    | IndexError
    | ZeroDivisionError

  datatype Result<T> = Ok(value: T) | Err(error: Error)

  datatype Option<T> = None | Some(value: T)
}
