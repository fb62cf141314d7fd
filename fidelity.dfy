/** The fidelity classifier of Simulation_of_Variational_Circuits/fidelity.py. A new
    input is compared with the training rows of class A (label 1) and class B (label -1):
    the mean overlap of its embedded state with the embedded rows of each class is
    estimated, and the class with the larger mean wins. The overlaps themselves come from
    simulating the embedding and are not modelled: each of the three estimators reads
    its per-pair overlap from a function of the two inputs it measures. */
module Fidelity {
  import opened Errors

  /** An input vector. */
  type Sample = seq<real>

  /** What `negate` accepts: a Python list, or anything else numpy negates whole. */
  datatype Item = List(items: seq<real>) | Scalar(v: real)

  /** negate(item): a list elementwise, anything else at once. */
  function Negate(item: Item): (r: Item)
    ensures r.List? <==> item.List?
    ensures r.List? ==> |r.items| == |item.items|
    ensures r.List? ==> forall k :: 0 <= k < |r.items| ==> r.items[k] == -item.items[k]
    ensures r.Scalar? ==> r.v == -item.v
  {
    match item
    case List(items) => List(seq(|items|, k requires 0 <= k < |items| => -items[k]))
    case Scalar(v) => Scalar(-v)
  }

  lemma NegateTwice(item: Item)
    ensures Negate(Negate(item)) == item
  {
    match item
    case List(items) =>
      assert Negate(Negate(item)).items == items;
    case Scalar(v) =>
  }

  /** The per-pair overlaps the three implementations compute for a fixed feature map and
      fixed trained parameters: `fast` the overlap-with-zero circuit, `swap` the swap
      test, `exact` |<phi(x1)|phi(x2)>|^2 from the simulated states. */
  datatype Overlaps = Overlaps(
    fast: (Sample, Sample) -> real,
    swap: (Sample, Sample) -> real,
    exact: (Sample, Sample) -> real)

  /** The settings `predict` loads: the training inputs X, their labels Y, and the learned
      feature map with its parameters, seen through the overlaps they produce. */
  datatype Settings = Settings(xs: seq<Sample>, ys: seq<int>, overlaps: Overlaps)

  datatype Impl = ExactImpl | CircuitImpl | FastImpl

  /** The `implementation` argument; None and any other string are not recognized. */
  function ParseImpl(name: Option<string>): (r: Option<Impl>)
    ensures r == Some(ExactImpl) <==> name == Some("exact")
    ensures r == Some(CircuitImpl) <==> name == Some("circuit")
    ensures r == Some(FastImpl) <==> name == Some("fast")
  {
    if name == Some("exact") then Some(ExactImpl)
    else if name == Some("circuit") then Some(CircuitImpl)
    else if name == Some("fast") then Some(FastImpl)
    else None
  }

  /** The overlap each implementation measures between a training row a and the new input:
      `_fast` and `_circuit` load a first and the new input second, `_exact` takes the
      inner product of the new state with the state of a. */
  function PairOverlap(m: Impl, ov: Overlaps, xNew: Sample): Sample -> real {
    match m
    case FastImpl => (a: Sample) => ov.fast(a, xNew)
    case CircuitImpl => (a: Sample) => ov.swap(a, xNew)
    case ExactImpl => (a: Sample) => ov.exact(xNew, a)
  }

  // ---------------------------------------------------------------------------
  // The mean overlap
  // ---------------------------------------------------------------------------

  /** f summed over the samples, in the order the loops add them. */
  function Sum(samples: seq<Sample>, f: Sample -> real): real {
    if samples == [] then 0.0 else Sum(samples[..|samples| - 1], f) + f(samples[|samples| - 1])
  }

  /** Sum over the samples divided by their number: what `overlap / len(samples)` yields
      once the loop is done. Python's division by len([]) == 0 raises. */
  function Mean(samples: seq<Sample>, f: Sample -> real): (r: Result<real>)
    ensures r.Err? <==> samples == []
    ensures r.Err? ==> r.error == ZeroDivisionError
  {
    if samples == [] then Err(ZeroDivisionError) else Ok(Sum(samples, f) / (|samples| as real))
  }

  lemma {:induction false} SumBounds(samples: seq<Sample>, f: Sample -> real, lo: real, hi: real)
    requires forall k :: 0 <= k < |samples| ==> lo <= f(samples[k]) <= hi
    ensures lo * (|samples| as real) <= Sum(samples, f) <= hi * (|samples| as real)
  {
    if samples != [] {
      var k := |samples| - 1;
      var prefix := samples[..k];
      assert forall j :: 0 <= j < |prefix| ==> prefix[j] == samples[j];
      SumBounds(prefix, f, lo, hi);
      assert lo * (|samples| as real) == lo * (k as real) + lo;
      assert hi * (|samples| as real) == hi * (k as real) + hi;
    }
  }

  /** When every pair overlap lies in [lo, hi] (for a true overlap, [0, 1]), so does the
      mean. */
  lemma MeanBounds(samples: seq<Sample>, f: Sample -> real, lo: real, hi: real)
    requires samples != []
    requires forall k :: 0 <= k < |samples| ==> lo <= f(samples[k]) <= hi
    ensures lo <= Mean(samples, f).value <= hi
  {
    var n := |samples| as real;
    SumBounds(samples, f, lo, hi);
    var m := Sum(samples, f) / n;
    assert m * n == Sum(samples, f);
    if m < lo {
      PositiveProduct(lo - m, n);
    }
    if m > hi {
      PositiveProduct(m - hi, n);
    }
  }

  lemma PositiveProduct(a: real, b: real)
    requires a > 0.0 && b > 0.0
    ensures a * b > 0.0
  {
  }

  /** Comparing against a class whose every row has the same overlap c gives c. */
  lemma {:induction false} SumConstant(samples: seq<Sample>, f: Sample -> real, c: real)
    requires forall k :: 0 <= k < |samples| ==> f(samples[k]) == c
    ensures Sum(samples, f) == c * (|samples| as real)
  {
    if samples != [] {
      var k := |samples| - 1;
      var prefix := samples[..k];
      assert forall j :: 0 <= j < |prefix| ==> prefix[j] == samples[j];
      SumConstant(prefix, f, c);
      assert c * (|samples| as real) == c * (k as real) + c;
    }
  }

  lemma MeanConstant(samples: seq<Sample>, f: Sample -> real, c: real)
    requires samples != []
    requires forall k :: 0 <= k < |samples| ==> f(samples[k]) == c
    ensures Mean(samples, f) == Ok(c)
  {
    var n := |samples| as real;
    SumConstant(samples, f, c);
    assert n > 0.0;
    assert Sum(samples, f) / n == (c * n) / n == c;
  }

  /** `overlap = 0; for a in samples: overlap += f(a); overlap = overlap / len(samples)`. */
  method MeanOverlap(samples: seq<Sample>, f: Sample -> real) returns (r: Result<real>)
    ensures r == Mean(samples, f)
  {
    var overlap := 0.0;
    for i := 0 to |samples|
      invariant overlap == Sum(samples[..i], f)
    {
      overlap := overlap + f(samples[i]);
      assert samples[..i + 1][..i] == samples[..i];
    }
    assert samples[..|samples|] == samples;
    if |samples| == 0 {
      return Err(ZeroDivisionError);
    }
    return Ok(overlap / (|samples| as real));
  }

  /** The mean overlaps with A and with B, A first; an empty list raises. */
  function Estimate(m: Impl, xNew: Sample, aSamples: seq<Sample>, bSamples: seq<Sample>, ov: Overlaps)
    : (r: Result<(real, real)>)
    ensures r.Err? <==> aSamples == [] || bSamples == []
    ensures r.Ok? ==> Mean(aSamples, PairOverlap(m, ov, xNew)) == Ok(r.value.0)
    ensures r.Ok? ==> Mean(bSamples, PairOverlap(m, ov, xNew)) == Ok(r.value.1)
  {
    var oa := Mean(aSamples, PairOverlap(m, ov, xNew));
    var ob := Mean(bSamples, PairOverlap(m, ov, xNew));
    if oa.Err? then Err(oa.error) else if ob.Err? then Err(ob.error) else Ok((oa.value, ob.value))
  }

  /** The mean loops shared by the estimators. */
  method Means(m: Impl, xNew: Sample, aSamples: seq<Sample>, bSamples: seq<Sample>, ov: Overlaps)
    returns (r: Result<(real, real)>)
    ensures r == Estimate(m, xNew, aSamples, bSamples, ov)
  {
    var oa := MeanOverlap(aSamples, PairOverlap(m, ov, xNew));
    if oa.Err? {
      return Err(oa.error);
    }
    var ob := MeanOverlap(bSamples, PairOverlap(m, ov, xNew));
    if ob.Err? {
      return Err(ob.error);
    }
    return Ok((oa.value, ob.value));
  }

  /** _fast: the overlap of embedding(a) followed by the embedding with negated weights
      and input x_new, with the all-zero state. */
  method Fast(xNew: Sample, aSamples: seq<Sample>, bSamples: seq<Sample>, ov: Overlaps)
    returns (r: Result<(real, real)>)
    ensures r == Estimate(FastImpl, xNew, aSamples, bSamples, ov)
  {
    r := Means(FastImpl, xNew, aSamples, bSamples, ov);
  }

  /** _circuit: the swap test between a and x_new on two registers. */
  method Circuit(xNew: Sample, aSamples: seq<Sample>, bSamples: seq<Sample>, ov: Overlaps)
    returns (r: Result<(real, real)>)
    ensures r == Estimate(CircuitImpl, xNew, aSamples, bSamples, ov)
  {
    r := Means(CircuitImpl, xNew, aSamples, bSamples, ov);
  }

  /** _exact: |<phi(x_new)|phi(a)>|^2 from simulated states. */
  method Exact(xNew: Sample, aSamples: seq<Sample>, bSamples: seq<Sample>, ov: Overlaps)
    returns (r: Result<(real, real)>)
    ensures r == Estimate(ExactImpl, xNew, aSamples, bSamples, ov)
  {
    r := Means(ExactImpl, xNew, aSamples, bSamples, ov);
  }

  /** When the exact overlap is symmetric, as |<u|v>|^2 is, the order in which _exact takes
      its arguments does not matter: it estimates the same means as the swap-test order. */
  lemma ExactOrderIrrelevant(xNew: Sample, aSamples: seq<Sample>, bSamples: seq<Sample>, ov: Overlaps)
    requires forall u, v :: ov.exact(u, v) == ov.exact(v, u)
    ensures Estimate(ExactImpl, xNew, aSamples, bSamples, ov) ==
      Estimate(CircuitImpl, xNew, aSamples, bSamples, Overlaps(ov.fast, ov.exact, ov.exact))
  {
    var f := PairOverlap(ExactImpl, ov, xNew);
    var g := PairOverlap(CircuitImpl, Overlaps(ov.fast, ov.exact, ov.exact), xNew);
    SumAgrees(aSamples, f, g);
    SumAgrees(bSamples, f, g);
  }

  /** Two overlaps that agree on every sample give the same sum. */
  lemma {:induction false} SumAgrees(samples: seq<Sample>, f: Sample -> real, g: Sample -> real)
    requires forall k :: 0 <= k < |samples| ==> f(samples[k]) == g(samples[k])
    ensures Sum(samples, f) == Sum(samples, g)
  {
    if samples != [] {
      var prefix := samples[..|samples| - 1];
      assert forall j :: 0 <= j < |prefix| ==> prefix[j] == samples[j];
      SumAgrees(prefix, f, g);
    }
  }

  // ---------------------------------------------------------------------------
  // The decision
  // ---------------------------------------------------------------------------

  /** What predict returns: a label when `binary`, else the difference of the means. */
  datatype Prediction = Label(sign: int) | Score(score: real)

  /** The binary decision: 1 for A, -1 for B, 0 on a tie. */
  function Compare(oa: real, ob: real): (r: int)
    ensures r == 1 <==> oa > ob
    ensures r == -1 <==> oa < ob
    ensures r == 0 <==> oa == ob
  {
    if oa > ob then 1 else if oa < ob then -1 else 0
  }

  function Decide(binary: bool, oa: real, ob: real): (r: Prediction)
    ensures r.Label? <==> binary
    ensures r.Label? ==> r.sign == Compare(oa, ob)
    ensures r.Score? ==> r.score == oa - ob
  {
    if binary then Label(Compare(oa, ob)) else Score(oa - ob)
  }

  function Opposite(p: Prediction): Prediction {
    match p
    case Label(l) => Label(-l)
    case Score(s) => Score(-s)
  }

  /** Exchanging the roles of the two classes negates the prediction. */
  lemma DecideSwap(binary: bool, oa: real, ob: real)
    ensures Decide(binary, ob, oa) == Opposite(Decide(binary, oa, ob))
  {
  }

  /** The result of predict once the samples are fixed: dispatch on the implementation,
      estimate, decide. */
  function Outcome(xNew: Sample, aSamples: seq<Sample>, bSamples: seq<Sample>, ov: Overlaps,
                   binary: bool, impl: Option<string>): (r: Result<Prediction>)
    ensures ParseImpl(impl).None? ==> r == Err(ValueError(UnknownImplementation))
    ensures ParseImpl(impl).Some? && (aSamples == [] || bSamples == []) ==> r == Err(ZeroDivisionError)
    ensures ParseImpl(impl).Some? && aSamples != [] && bSamples != [] ==>
      var e := Estimate(ParseImpl(impl).value, xNew, aSamples, bSamples, ov).value;
      r == Ok(Decide(binary, e.0, e.1))
  {
    match ParseImpl(impl)
    case None => Err(ValueError(UnknownImplementation))
    case Some(m) =>
      var e := Estimate(m, xNew, aSamples, bSamples, ov);
      if e.Err? then Err(e.error) else Ok(Decide(binary, e.value.0, e.value.1))
  }

  // ---------------------------------------------------------------------------
  // The classes and the sampling
  // ---------------------------------------------------------------------------

  /** X[Y == tag]: the rows carrying `label`, in order. */
  function Select(xs: seq<Sample>, ys: seq<int>, tag: int): seq<Sample>
    requires |xs| == |ys|
  {
    if xs == [] then []
    else Select(xs[..|xs| - 1], ys[..|ys| - 1], tag) + (if ys[|ys| - 1] == tag then [xs[|xs| - 1]] else [])
  }

  /** The number of labels equal to `label`. */
  function Count(ys: seq<int>, tag: int): nat {
    if ys == [] then 0 else Count(ys[..|ys| - 1], tag) + (if ys[|ys| - 1] == tag then 1 else 0)
  }

  /** The class holds one row per label equal to `label`, each a row of X with that label,
      and every such row is in it. */
  lemma {:induction false} SelectExactly(xs: seq<Sample>, ys: seq<int>, tag: int)
    requires |xs| == |ys|
    ensures |Select(xs, ys, tag)| == Count(ys, tag)
    ensures forall v :: v in Select(xs, ys, tag) ==> exists i :: 0 <= i < |xs| && ys[i] == tag && xs[i] == v
    ensures forall i :: 0 <= i < |xs| && ys[i] == tag ==> xs[i] in Select(xs, ys, tag)
  {
    if xs != [] {
      var k := |xs| - 1;
      SelectExactly(xs[..k], ys[..k], tag);
      var prev := Select(xs[..k], ys[..k], tag);
      var last := if ys[k] == tag then [xs[k]] else [];
      assert Select(xs, ys, tag) == prev + last;
      forall v | v in Select(xs, ys, tag)
        ensures exists i :: 0 <= i < |xs| && ys[i] == tag && xs[i] == v
      {
        if v in prev {
          var i :| 0 <= i < k && ys[..k][i] == tag && xs[..k][i] == v;
          assert ys[i] == tag && xs[i] == v;
        } else {
          assert ys[k] == tag && xs[k] == v;
        }
      }
      forall i | 0 <= i < |xs| && ys[i] == tag
        ensures xs[i] in Select(xs, ys, tag)
      {
        if i < k {
          assert ys[..k][i] == ys[i] && xs[..k][i] == xs[i];
        }
      }
    }
  }

  /** A row labelled neither 1 nor -1 goes to neither class: the two classes together
      have as many rows as there are labels 1 and -1. */
  lemma {:induction false} ClassesPartition(xs: seq<Sample>, ys: seq<int>)
    requires |xs| == |ys|
    ensures |Select(xs, ys, 1)| + |Select(xs, ys, -1)| + Others(ys) == |xs|
  {
    SelectExactly(xs, ys, 1);
    SelectExactly(xs, ys, -1);
    CountSplit(ys);
  }

  /** Labels other than 1 and -1. */
  function Others(ys: seq<int>): nat {
    if ys == [] then 0 else Others(ys[..|ys| - 1]) + (if ys[|ys| - 1] != 1 && ys[|ys| - 1] != -1 then 1 else 0)
  }

  lemma {:induction false} CountSplit(ys: seq<int>)
    ensures Count(ys, 1) + Count(ys, -1) + Others(ys) == |ys|
  {
    if ys != [] {
      CountSplit(ys[..|ys| - 1]);
    }
  }

  function SumReals(p: seq<real>): real {
    if p == [] then 0.0 else SumReals(p[..|p| - 1]) + p[|p| - 1]
  }

  /** Weights numpy accepts as a distribution: non-negative and summing to 1. */
  predicate IsDistribution(p: seq<real>) {
    (forall k :: 0 <= k < |p| ==> p[k] >= 0.0) && SumReals(p) == 1.0
  }

  /** np.random.choice(range(pop), size=(n,), replace=True, p=probs) raises, in its order:
      an empty population with samples asked for; weights of another length; weights
      that are not a distribution. */
  function DrawError(pop: nat, n: nat, probs: Option<seq<real>>): Option<Error> {
    if pop == 0 && n > 0 then Some(ValueError(EmptyPopulation))
    else if probs.Some? && |probs.value| != pop then Some(ValueError(ProbsLengthMismatch(|probs.value|, pop)))
    else if probs.Some? && !IsDistribution(probs.value) then Some(ValueError(BadProbabilities))
    else None
  }

  /** A draw numpy may return: n indices into the population, with replacement, never one
      of weight 0. */
  predicate ValidDraw(sel: seq<nat>, pop: nat, n: nat, probs: Option<seq<real>>) {
    |sel| == n &&
    (forall k :: 0 <= k < n ==> sel[k] < pop) &&
    (probs.Some? ==> |probs.value| == pop && forall k :: 0 <= k < n ==> probs.value[sel[k]] > 0.0)
  }

  lemma {:induction false} SumNonPositive(p: seq<real>)
    requires forall k :: 0 <= k < |p| ==> p[k] <= 0.0
    ensures SumReals(p) <= 0.0
  {
    if p != [] {
      var prefix := p[..|p| - 1];
      assert forall k :: 0 <= k < |prefix| ==> prefix[k] == p[k];
      SumNonPositive(prefix);
    }
  }

  /** A distribution has an entry of positive weight. */
  lemma PositiveEntry(p: seq<real>) returns (i: nat)
    requires IsDistribution(p)
    ensures i < |p| && p[i] > 0.0
  {
    if forall k :: 0 <= k < |p| ==> p[k] <= 0.0 {
      SumNonPositive(p);
      assert false;
    }
    var j :| 0 <= j < |p| && p[j] > 0.0;
    i := j;
  }

  /** The random choice of the sample indices, as any draw numpy may make. */
  method Draw(pop: nat, n: nat, probs: Option<seq<real>>) returns (r: Result<seq<nat>>)
    ensures DrawError(pop, n, probs).Some? ==> r == Err(DrawError(pop, n, probs).value)
    ensures DrawError(pop, n, probs).None? ==> r.Ok? && ValidDraw(r.value, pop, n, probs)
  {
    var e := DrawError(pop, n, probs);
    if e.Some? {
      return Err(e.value);
    }
    ghost var pick: nat := 0;
    if probs.Some? && n > 0 {
      pick := PositiveEntry(probs.value);
    }
    assert ValidDraw(seq(n, _ => pick), pop, n, probs);
    var sel: seq<nat> :| ValidDraw(sel, pop, n, probs);
    return Ok(sel);
  }

  /** A[select]: the drawn rows. */
  function Pick(rows: seq<Sample>, sel: seq<nat>): (r: seq<Sample>)
    requires forall k :: 0 <= k < |sel| ==> sel[k] < |rows|
    ensures |r| == |sel| && forall k :: 0 <= k < |sel| ==> r[k] == rows[sel[k]]
  {
    seq(|sel|, k requires 0 <= k < |sel| => rows[sel[k]])
  }

  // ---------------------------------------------------------------------------
  // predict
  // ---------------------------------------------------------------------------

  /** What predict checks before any sampling or overlap work: X[Y == 1] needs a label per
      row; probs_A, then probs_B, must match their class in length. */
  function Preflight(s: Settings, probsA: Option<seq<real>>, probsB: Option<seq<real>>): Option<Error> {
    if |s.xs| != |s.ys| then Some(IndexError)
    else
      var a := Select(s.xs, s.ys, 1);
      var b := Select(s.xs, s.ys, -1);
      if probsA.Some? && |probsA.value| != |a| then Some(ValueError(ProbsLengthMismatch(|probsA.value|, |a|)))
      else if probsB.Some? && |probsB.value| != |b| then Some(ValueError(ProbsLengthMismatch(|probsB.value|, |b|)))
      else None
  }

  /** The error predict raises, if any. None of its checks looks at x_new, so every test
      point meets the same one. In predict's order: the pre-checks, the draw from A, the
      draw from B, the implementation name, then the mean over an empty class (no
      n_samples) or over an empty draw (n_samples 0). */
  function PredictError(s: Settings, nSamples: Option<nat>, probsA: Option<seq<real>>,
                        probsB: Option<seq<real>>, impl: Option<string>): Option<Error>
  {
    if Preflight(s, probsA, probsB).Some? then Preflight(s, probsA, probsB)
    else
      var a := |Select(s.xs, s.ys, 1)|;
      var b := |Select(s.xs, s.ys, -1)|;
      if nSamples.Some? && DrawError(a, nSamples.value, probsA).Some? then DrawError(a, nSamples.value, probsA)
      else if nSamples.Some? && DrawError(b, nSamples.value, probsB).Some? then DrawError(b, nSamples.value, probsB)
      else if ParseImpl(impl).None? then Some(ValueError(UnknownImplementation))
      else if (if nSamples.Some? then nSamples.value == 0 else a == 0 || b == 0) then Some(ZeroDivisionError)
      else None
  }

  /** `sign` is a label predict(x_new, ..., binary=True) may return: the one decided on
      the two full classes or, with n_samples, the one decided on some pair of draws
      numpy may make. */
  ghost predicate Predicted(xNew: Sample, s: Settings, nSamples: Option<nat>, probsA: Option<seq<real>>,
                            probsB: Option<seq<real>>, impl: Option<string>, sign: int)
  {
    |s.xs| == |s.ys| &&
    var a := Select(s.xs, s.ys, 1);
    var b := Select(s.xs, s.ys, -1);
    match nSamples
    case None => Outcome(xNew, a, b, s.overlaps, true, impl) == Ok(Label(sign))
    case Some(n) =>
      exists dA: seq<nat>, dB: seq<nat> ::
        ValidDraw(dA, |a|, n, probsA) && ValidDraw(dB, |b|, n, probsB) &&
        Outcome(xNew, Pick(a, dA), Pick(b, dB), s.overlaps, true, impl) == Ok(Label(sign))
  }

  /** predict(x_new, ...): with no n_samples the full classes are compared; otherwise
      n_samples rows are drawn from each, A first. The implementation is checked only
      after the sampling. `drawnA`/`drawnB` are the draws made, if any. */
  method Predict(xNew: Sample, s: Settings, nSamples: Option<nat>, probsA: Option<seq<real>>,
                 probsB: Option<seq<real>>, binary: bool, impl: Option<string>)
    returns (r: Result<Prediction>, ghost drawnA: seq<nat>, ghost drawnB: seq<nat>)
    ensures PredictError(s, nSamples, probsA, probsB, impl).Some? ==>
      r == Err(PredictError(s, nSamples, probsA, probsB, impl).value)
    ensures PredictError(s, nSamples, probsA, probsB, impl).None? ==> r.Ok?
    ensures r.Ok? && binary ==> r.value.Label? && Predicted(xNew, s, nSamples, probsA, probsB, impl, r.value.sign)
    ensures Preflight(s, probsA, probsB).Some? ==> r == Err(Preflight(s, probsA, probsB).value)
    ensures Preflight(s, probsA, probsB).None? && nSamples.None? ==>
      r == Outcome(xNew, Select(s.xs, s.ys, 1), Select(s.xs, s.ys, -1), s.overlaps, binary, impl)
    ensures Preflight(s, probsA, probsB).None? && nSamples.Some? ==>
      var eA := DrawError(|Select(s.xs, s.ys, 1)|, nSamples.value, probsA);
      var eB := DrawError(|Select(s.xs, s.ys, -1)|, nSamples.value, probsB);
      (eA.Some? ==> r == Err(eA.value)) &&
      (eA.None? && eB.Some? ==> r == Err(eB.value)) &&
      (eA.None? && eB.None? ==>
        ValidDraw(drawnA, |Select(s.xs, s.ys, 1)|, nSamples.value, probsA) &&
        ValidDraw(drawnB, |Select(s.xs, s.ys, -1)|, nSamples.value, probsB) &&
        r == Outcome(xNew, Pick(Select(s.xs, s.ys, 1), drawnA), Pick(Select(s.xs, s.ys, -1), drawnB),
                     s.overlaps, binary, impl))
  {
    drawnA, drawnB := [], [];
    var pre := Preflight(s, probsA, probsB);
    if pre.Some? {
      return Err(pre.value), drawnA, drawnB;
    }
    var a := Select(s.xs, s.ys, 1);
    var b := Select(s.xs, s.ys, -1);
    var aSamples, bSamples := a, b;
    if nSamples.Some? {
      var selA := Draw(|a|, nSamples.value, probsA);
      if selA.Err? {
        return Err(selA.error), drawnA, drawnB;
      }
      var selB := Draw(|b|, nSamples.value, probsB);
      if selB.Err? {
        return Err(selB.error), drawnA, drawnB;
      }
      drawnA, drawnB := selA.value, selB.value;
      aSamples := Pick(a, selA.value);
      bSamples := Pick(b, selB.value);
    }
    var m := ParseImpl(impl);
    if m.None? {
      return Err(ValueError(UnknownImplementation)), drawnA, drawnB;
    }
    var e;
    match m.value {
      case ExactImpl => e := Exact(xNew, aSamples, bSamples, s.overlaps);
      case CircuitImpl => e := Circuit(xNew, aSamples, bSamples, s.overlaps);
      case FastImpl => e := Fast(xNew, aSamples, bSamples, s.overlaps);
    }
    if e.Err? {
      return Err(e.error), drawnA, drawnB;
    }
    r := Ok(Decide(binary, e.value.0, e.value.1));
    if binary && nSamples.Some? {
      assert ValidDraw(drawnA, |a|, nSamples.value, probsA) && ValidDraw(drawnB, |b|, nSamples.value, probsB) &&
        Outcome(xNew, Pick(a, drawnA), Pick(b, drawnB), s.overlaps, true, impl) == Ok(Label(r.value.sign));
    }
  }

  // ---------------------------------------------------------------------------
  // accuracy
  // ---------------------------------------------------------------------------

  /** The test points whose prediction equals their label. */
  function Matches(labels: seq<int>, preds: seq<int>): (r: nat)
    requires |labels| == |preds|
    ensures r <= |labels|
  {
    if labels == [] then 0
    else Matches(labels[..|labels| - 1], preds[..|preds| - 1]) + (if labels[|labels| - 1] == preds[|preds| - 1] then 1 else 0)
  }

  /** sum(acc) / len(acc). */
  function Ratio(labels: seq<int>, preds: seq<int>): (r: Result<real>)
    requires |labels| == |preds|
    ensures r.Err? <==> labels == []
    ensures r.Err? ==> r.error == ZeroDivisionError
    ensures r.Ok? ==> 0.0 <= r.value <= 1.0
  {
    if labels == [] then Err(ZeroDivisionError)
    else
      var m := Matches(labels, preds) as real;
      var n := |labels| as real;
      assert m / n <= 1.0 by {
        assert m <= n;
      }
      Ok(m / n)
  }

  /** Every prediction right: accuracy 1. */
  lemma {:induction false} AllMatch(labels: seq<int>)
    ensures Matches(labels, labels) == |labels|
  {
    if labels != [] {
      AllMatch(labels[..|labels| - 1]);
    }
  }

  /** A tie (prediction 0) never counts as right for a label 1 or -1: the matches are at
      most the points predicted with a sign. */
  lemma {:induction false} TiesNeverMatch(labels: seq<int>, preds: seq<int>)
    requires |labels| == |preds|
    requires forall k :: 0 <= k < |labels| ==> labels[k] == 1 || labels[k] == -1
    ensures Matches(labels, preds) <= |preds| - Count(preds, 0)
  {
    if labels != [] {
      var k := |labels| - 1;
      assert forall j :: 0 <= j < k ==> labels[..k][j] == labels[j];
      TiesNeverMatch(labels[..k], preds[..k]);
      CountAtMost(preds[..k], 0);
    }
  }

  lemma {:induction false} CountAtMost(ys: seq<int>, tag: int)
    ensures Count(ys, tag) <= |ys|
  {
    if ys != [] {
      CountAtMost(ys[..|ys| - 1], tag);
    }
  }

  function Min(a: nat, b: nat): nat {
    if a < b then a else b
  }

  /** Counting one more test point adds one match when its prediction is right. */
  lemma MatchesExtend(labels: seq<int>, preds: seq<int>, sign: int)
    requires |preds| < |labels|
    ensures Matches(labels[..|preds| + 1], preds + [sign]) ==
      Matches(labels[..|preds|], preds) + (if labels[|preds|] == sign then 1 else 0)
  {
    var i := |preds|;
    assert labels[..i + 1][..i] == labels[..i] && (preds + [sign])[..i] == preds;
  }

  /** A label predict may return for the next test point extends the labels predicted so far. */
  lemma PredictedExtend(testX: seq<Sample>, preds: seq<int>, sign: int, s: Settings, nSamples: Option<nat>,
                        probsA: Option<seq<real>>, probsB: Option<seq<real>>, impl: Option<string>)
    requires |preds| < |testX|
    requires forall k :: 0 <= k < |preds| ==> Predicted(testX[k], s, nSamples, probsA, probsB, impl, preds[k])
    requires Predicted(testX[|preds|], s, nSamples, probsA, probsB, impl, sign)
    ensures forall k :: 0 <= k < |preds| + 1 ==> Predicted(testX[k], s, nSamples, probsA, probsB, impl, (preds + [sign])[k])
  {
    forall k | 0 <= k < |preds| + 1
      ensures Predicted(testX[k], s, nSamples, probsA, probsB, impl, (preds + [sign])[k])
    {
      if k < |preds| {
        assert (preds + [sign])[k] == preds[k];
      }
    }
  }

  /** accuracy(X, Y, ...): predict every test point of zip(X, Y) with binary True and
      count the right ones. `preds` are the labels predicted. */
  method Accuracy(testX: seq<Sample>, testY: seq<int>, s: Settings, nSamples: Option<nat>,
                  probsA: Option<seq<real>>, probsB: Option<seq<real>>, impl: Option<string>)
    returns (r: Result<real>, ghost preds: seq<int>)
    ensures Min(|testX|, |testY|) == 0 ==> r == Err(ZeroDivisionError)
    ensures Min(|testX|, |testY|) > 0 && PredictError(s, nSamples, probsA, probsB, impl).Some? ==>
      r == Err(PredictError(s, nSamples, probsA, probsB, impl).value)
    ensures Min(|testX|, |testY|) > 0 && PredictError(s, nSamples, probsA, probsB, impl).None? ==> r.Ok?
    ensures Min(|testX|, |testY|) > 0 && Preflight(s, probsA, probsB).Some? ==>
      r == Err(Preflight(s, probsA, probsB).value)
    ensures r.Ok? ==> |preds| == Min(|testX|, |testY|)
    ensures r.Ok? ==> forall k :: 0 <= k < |preds| ==>
      Predicted(testX[k], s, nSamples, probsA, probsB, impl, preds[k])
    ensures r.Ok? ==> r == Ratio(testY[..Min(|testX|, |testY|)], preds)
    ensures r.Ok? ==> 0.0 <= r.value <= 1.0
  {
    var n := Min(|testX|, |testY|);
    var hits: nat := 0;
    preds := [];
    for i := 0 to n
      invariant |preds| == i && hits == Matches(testY[..i], preds)
      invariant i > 0 ==> PredictError(s, nSamples, probsA, probsB, impl).None?
      invariant forall k :: 0 <= k < i ==> Predicted(testX[k], s, nSamples, probsA, probsB, impl, preds[k])
    {
      var p;
      ghost var dA, dB;
      p, dA, dB := Predict(testX[i], s, nSamples, probsA, probsB, true, impl);
      if p.Err? {
        return Err(p.error), preds;
      }
      assert p.value.Label?;
      PredictedExtend(testX, preds, p.value.sign, s, nSamples, probsA, probsB, impl);
      MatchesExtend(testY, preds, p.value.sign);
      preds := preds + [p.value.sign];
      if testY[i] == p.value.sign {
        hits := hits + 1;
      }
    }
    if n == 0 {
      return Err(ZeroDivisionError), preds;
    }
    return Ok((hits as real) / (n as real)), preds;
  }
}
