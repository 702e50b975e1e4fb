/** The two verification paths side by side. */
module CtcVerify {
  import opened CtcSpec
  import opened CtcLayout
  import opened CtcGradient
  import opened CtcReference
  import opened CtcEmulator
  import opened CtcSoftmax
  import opened CtcRun
  import opened CtcMeaning
  import Sums

  // ---- The reference path ----

  /** Softmax into a fresh buffer, row by row. */
  method SoftmaxAll(raw: seq<real>, classes: nat, rows: nat) returns (out: array<real>)
    requires classes >= 1 && AllPositive(raw) && |raw| == Row(classes, rows, 0)
    ensures fresh(out) && out[..] == SoftmaxRows(raw, classes, rows)
  {
    hide Row, SoftmaxRow, AllPositive;
    out := new real[|raw|](_ => 0.0);
    RowZero(classes);
    for j := 0 to rows
      invariant Row(classes, j, 0) <= |raw|
      invariant out[..Row(classes, j, 0)] == SoftmaxRows(raw, classes, j)
    {
      RowNext(classes, j);
      RowBefore(classes, j, rows);
      ghost var before, base := out[..], Row(classes, j, 0);
      SubvecSoftmax(raw, out, Row(classes, j, 0), Row(classes, j, 0), classes);
      SliceGrows(before, out[..], 0, base, base + classes);
    }
  }

  method FirstCells(beta: array<real>, ghost l: Lattice) returns (loss: real)
    requires l.Valid() && BetaTable(beta[..], l, 0)
    ensures loss == l.BetaLoss(0)
  {
    hide Lattice.Beta;
    RowZero(|l.lp|);
    assert HoldsBeta(beta[..], Row(|l.lp|, 0, 0), l, 0, 0);
    loss := beta[0] + beta[1];
  }

  /** The gradient entries of one item, in either mode. */
  ghost predicate HoldsGradients(gradients: seq<real>, g: Strides, j: nat, l: Lattice, softmax: bool)
    requires l.Valid() && Positive(l.y) && l.Likelihood(0) > 0.0
  {
    && Fits(g, |l.y|, j, l.classes, |gradients|)
    && forall t: nat, c: nat :: t < |l.y| && c < l.classes ==>
         gradients[Offset(g, t, j, c)] == ModeGradient(l, 0, 0, t, c, softmax)
  }

  /** Loss, beta loss and gradients of one item from full tables. */
  method ReferenceItem(batch: Batch, probs: seq<real>, s: Strides, g: Strides, lab: seq<int>, j: nat,
                       losses: array<real>, gradients: array<real>, betaLoss: array<real>, blankLb: int, softmax: bool)
    requires Ready(batch, probs, s, g, blankLb) && j < |batch.inputLengths| && lab == batch.Lab(j)
    requires losses.Length == |batch.inputLengths| == betaLoss.Length && gradients.Length == |probs|
    requires losses != gradients && losses != betaLoss && gradients != betaLoss
    requires forall t: nat, c: nat :: batch.inputLengths[j] <= t < batch.maxSteps && c < batch.classes ==>
               Offset(g, t, j, c) < gradients.Length && gradients[Offset(g, t, j, c)] == 0.0
    modifies losses, gradients, betaLoss
    ensures Delivers(batch, probs, s, g, blankLb, softmax, losses[..], betaLoss[..], gradients[..], j)
    ensures ChangesOwn(batch, g, j, old(gradients[..]), gradients[..], seq(|probs|, _ => 0.0))
    ensures forall q :: 0 <= q < losses.Length && q != j ==> losses[q] == old(losses[q])
    ensures forall q :: 0 <= q < betaLoss.Length && q != j ==> betaLoss[q] == old(betaLoss[q])
  {
    ItemReady(batch, probs, s, g, blankLb, j);
    var steps, n, classes := batch.inputLengths[j], |batch.inputLengths|, batch.classes;
    ghost var l := ItemOf(batch, probs, s, blankLb, j);
    hide Offset, ModeGradient, Touches, Ready, ChangesOwn;
    hide Lattice.Alpha, Lattice.Beta, Lattice.ClassMass, Lattice.Likelihood, Lattice.BetaLoss;
    var alpha := CtcForward(probs, lab, steps, classes, s, j, blankLb);
    losses[j] := Ends(alpha, l, steps);
    var beta := CtcBackward(probs, lab, steps, classes, s, j, blankLb);
    betaLoss[j] := FirstCells(beta, l);
    ReferenceGradients(batch, probs, s, g, lab, j, gradients, blankLb, softmax);
  }

  method ReferenceGradients(batch: Batch, probs: seq<real>, s: Strides, g: Strides, lab: seq<int>, j: nat,
                            gradients: array<real>, blankLb: int, softmax: bool)
    requires Ready(batch, probs, s, g, blankLb) && j < |batch.inputLengths| && lab == batch.Lab(j)
    requires gradients.Length == |probs|
    requires forall t: nat, c: nat :: batch.inputLengths[j] <= t < batch.maxSteps && c < batch.classes ==>
               Offset(g, t, j, c) < gradients.Length && gradients[Offset(g, t, j, c)] == 0.0
    modifies gradients
    ensures Fits(s, batch.inputLengths[j], j, batch.classes, |probs|)
    ensures var l := ItemOf(batch, probs, s, blankLb, j);
            l.Valid() && Positive(l.y) && l.Likelihood(0) > 0.0 && HoldsGradients(gradients[..], g, j, l, softmax)
    ensures ChangesOwn(batch, g, j, old(gradients[..]), gradients[..], seq(|probs|, _ => 0.0))
  {
    ItemReady(batch, probs, s, g, blankLb, j);
    var steps, n, classes := batch.inputLengths[j], |batch.inputLengths|, batch.classes;
    assert Fits(g, batch.maxSteps, j, classes, gradients.Length);
    hide Offset, Touches;
    hide Lattice.ClassMass, Lattice.Likelihood;
    ghost var before := gradients[..];
    if softmax {
      CtcSoftmaxLayerGradientLog(lab, steps, n, classes, s, g, j, probs, gradients, blankLb);
      PrefixOnly(batch, g, j, before, gradients[..]);
    } else {
      CtcGradientLog(lab, steps, batch.maxSteps, n, classes, s, g, j, probs, gradients, blankLb);
    }
  }

  lemma PrefixOnly(batch: Batch, g: Strides, j: nat, before: seq<real>, after: seq<real>)
    requires j < |batch.inputLengths| && batch.inputLengths[j] <= batch.maxSteps && |after| == |before|
    requires Separate(g, batch.maxSteps, |batch.inputLengths|, batch.classes)
    requires Fits(g, batch.maxSteps, j, batch.classes, |after|)
    requires forall q :: 0 <= q < |after| && !Touches(g, batch.inputLengths[j], j, batch.classes, q) ==>
               after[q] == before[q]
    requires forall t: nat, c: nat :: batch.inputLengths[j] <= t < batch.maxSteps && c < batch.classes ==>
               before[Offset(g, t, j, c)] == 0.0
    ensures ChangesOwn(batch, g, j, before, after, seq(|after|, _ => 0.0))
  {
    hide Offset;
    forall q | 0 <= q < |after| && !Touches(g, batch.maxSteps, j, batch.classes, q) ensures after[q] == before[q] {
      assert !Touches(g, batch.inputLengths[j], j, batch.classes, q);
    }
    forall t: nat, c: nat | batch.inputLengths[j] <= t < batch.maxSteps && c < batch.classes
      ensures after[Offset(g, t, j, c)] == 0.0
    {
      TouchesOwn(batch, g, j, j, t, c);
    }
  }

  lemma OwnPadding(batch: Batch, g: Strides, gradients: seq<real>, zeros: seq<real>, j: nat)
    requires PaddingIs(batch, g, gradients, zeros) && j < |batch.inputLengths|
    requires forall q :: 0 <= q < |zeros| ==> zeros[q] == 0.0
    ensures forall t: nat, c: nat :: batch.inputLengths[j] <= t < batch.maxSteps && c < batch.classes ==>
              Offset(g, t, j, c) < |gradients| && gradients[Offset(g, t, j, c)] == 0.0
  {
    hide Offset;
    assert Fits(g, batch.maxSteps, j, batch.classes, |gradients|);
  }

  /** Item after item into a fresh gradient buffer of zeros, copied out at the end. */
  method RunReference(batch: Batch, raw: seq<real>, s: Strides, g: Strides, losses: array<real>, gradients: array<real>,
                      betaLoss: array<real>, blankLb: int, softmax: bool)
    requires Callable(batch, raw, s, g, blankLb) && batch.Accepted()
    requires losses.Length == |batch.inputLengths| == betaLoss.Length && gradients.Length == |raw|
    requires losses != gradients && losses != betaLoss && gradients != betaLoss
    modifies losses, gradients, betaLoss
    ensures forall i: nat :: i < |batch.inputLengths| ==>
              Delivers(batch, Used(batch, raw, softmax), s, g, blankLb, softmax, losses[..], betaLoss[..],
                       gradients[..], i)
    ensures PaddingIs(batch, g, gradients[..], seq(|raw|, _ => 0.0))
  {
    var n := |batch.inputLengths|;
    RowValue(batch.classes, batch.maxSteps * n);
    CallableIsReady(batch, raw, s, g, blankLb, softmax);
    hide Delivers, PaddingIs, Callable, Ready, AllPositive;
    hide Batch.Accepted;
    var normalised := SoftmaxAll(raw, batch.classes, batch.maxSteps * n);
    var probs := if softmax then normalised[..] else raw;
    var result := new real[|raw|](_ => 0.0);
    ReferenceItems(batch, probs, s, g, losses, result, betaLoss, blankLb, softmax);
    CopyInto(gradients, result);
  }

  method CopyInto(to: array<real>, from: array<real>)
    requires to != from && to.Length == from.Length
    modifies to
    ensures to[..] == old(from[..])
  {
    for q := 0 to to.Length
      invariant forall k :: 0 <= k < q ==> to[k] == from[k]
    {
      to[q] := from[q];
    }
  }

  /** The next label out of the concatenation, whose offset is the sum of the lengths before it. */
  method SliceLabel(batch: Batch, offset: nat, j: nat) returns (lab: seq<int>)
    requires batch.Shaped() && j < |batch.inputLengths| && offset == Sum(batch.labelLengths, j)
    ensures lab == batch.Lab(j) && offset + batch.labelLengths[j] == Sum(batch.labelLengths, j + 1)
  {
    SumGrows(batch.labelLengths, j + 1, |batch.labelLengths|);
    lab := batch.labels[offset..offset + batch.labelLengths[j]];
  }

  method ReferenceItems(batch: Batch, probs: seq<real>, s: Strides, g: Strides, losses: array<real>,
                        gradients: array<real>, betaLoss: array<real>, blankLb: int, softmax: bool)
    requires Ready(batch, probs, s, g, blankLb)
    requires losses.Length == |batch.inputLengths| == betaLoss.Length && gradients.Length == |probs|
    requires losses != gradients && losses != betaLoss && gradients != betaLoss
    requires forall q :: 0 <= q < gradients.Length ==> gradients[q] == 0.0
    modifies losses, gradients, betaLoss
    ensures forall i: nat :: i < |batch.inputLengths| ==>
              Delivers(batch, probs, s, g, blankLb, softmax, losses[..], betaLoss[..], gradients[..], i)
    ensures PaddingIs(batch, g, gradients[..], seq(|probs|, _ => 0.0))
  {
    ghost var zeros := seq(|probs|, _ => 0.0);
    NoPadding(batch, probs, s, g, blankLb, zeros);
    assert gradients[..] == zeros;
    var offset := 0;
    assert Sum(batch.labelLengths, 0) == 0;
    hide Delivers, Ready, ChangesOwn, Offset, Sum, PaddingIs;
    hide Batch.Lab;
    for j := 0 to |batch.inputLengths|
      invariant offset == Sum(batch.labelLengths, j)
      invariant forall i: nat :: i < j ==>
                  Delivers(batch, probs, s, g, blankLb, softmax, losses[..], betaLoss[..], gradients[..], i)
      invariant PaddingIs(batch, g, gradients[..], zeros)
    {
      ghost var before, lossesBefore, betaBefore := gradients[..], losses[..], betaLoss[..];
      var lab := SliceLabel(batch, offset, j);
      OwnPadding(batch, g, before, zeros, j);
      ReferenceItem(batch, probs, s, g, lab, j, losses, gradients, betaLoss, blankLb, softmax);
      ResultsKept(batch, probs, s, g, blankLb, softmax, lossesBefore, betaBefore, before, losses[..], betaLoss[..],
                  gradients[..], zeros, j);
      offset := offset + batch.labelLengths[j];
    }
  }

  // ---- Both paths ----

  datatype Outcome = WrongSize | Rejected | Done(betaLoss: seq<real>)

  predicate SizesMatch(batch: Batch, raw: seq<real>, probsDims: Dims, gradientDims: Dims, gradientSize: nat) {
    && |batch.labelLengths| == |batch.inputLengths|
    && |raw| == batch.maxSteps * |batch.inputLengths| * batch.classes
    && |raw| == gradientSize
    && probsDims == DimsOf(batch) && gradientDims == DimsOf(batch)
  }

  /** Path 1 checks the batch and goes through the workspace; any other path trusts it. */
  method RunCtcLossCpuVerify(numClass: nat, inputLengths: seq<nat>, labelLengths: seq<nat>, labels: seq<int>,
                             probsDims: Dims, gradientDims: Dims, raw: seq<real>, s: Strides, g: Strides,
                             losses: array<real>, gradients: array<real>, ws: array<real>, blankLb: int, softmax: bool,
                             verifyPath: int)
    returns (outcome: Outcome, ghost batch: Batch)
    requires |inputLengths| >= 1
    requires var batch := Batch(Largest(inputLengths, |inputLengths|), numClass + 1, inputLengths, labelLengths,
                                labels);
             SizesMatch(batch, raw, probsDims, gradientDims, gradients.Length) ==>
               && Callable(batch, raw, s, g, blankLb) && losses.Length == |inputLengths|
               && (verifyPath != 1 ==> batch.Accepted())
               && (batch.Accepted() ==> RegionsOf(batch).Size() <= ws.Length)
    requires ws != losses && ws != gradients && losses != gradients
    modifies ws, losses, gradients
    ensures batch == Batch(Largest(inputLengths, |inputLengths|), numClass + 1, inputLengths, labelLengths, labels)
    ensures outcome.WrongSize? <==> !SizesMatch(batch, raw, probsDims, gradientDims, gradients.Length)
    ensures outcome.Rejected? <==>
              SizesMatch(batch, raw, probsDims, gradientDims, gradients.Length) && !batch.Accepted()
    ensures !outcome.Done? || verifyPath != 1 ==> ws[..] == old(ws[..])
    ensures !outcome.Done? ==> losses[..] == old(losses[..]) && gradients[..] == old(gradients[..])
    ensures outcome.Done? && verifyPath == 1 ==> forall q :: RegionsOf(batch).Size() <= q < ws.Length ==>
              ws[q] == old(ws[q])
    ensures outcome.Done? ==> forall i: nat :: i < |inputLengths| ==>
              Delivers(batch, Used(batch, raw, softmax), s, g, blankLb, softmax, losses[..], outcome.betaLoss,
                       gradients[..], i)
    ensures outcome.Done? ==> forall i: nat :: i < |inputLengths| ==>
              Means(batch, raw, s, g, blankLb, softmax, losses[..], outcome.betaLoss, gradients[..], i)
    ensures outcome.Done? ==>
              PaddingIs(batch, g, gradients[..], if verifyPath == 1 then old(gradients[..]) else seq(|raw|, _ => 0.0))
  {
    hide Delivers, PaddingIs, RegionsOf, Means;
    hide Batch.Accepted, Regions.Size;
    var maxSteps := MaxLength(inputLengths);
    var b := Batch(maxSteps, numClass + 1, inputLengths, labelLengths, labels);
    batch := b;
    if !SizesMatch(b, raw, probsDims, gradientDims, gradients.Length) { return WrongSize, batch; }
    hide Callable;
    var betaLoss := new real[|inputLengths|](_ => 0.0);
    if verifyPath == 1 {
      var ran := RunEmulator(b, raw, s, gradientDims, g, ws, losses, gradients, betaLoss, blankLb, softmax);
      if !ran { return Outcome.Rejected, batch; }
    } else {
      RunReference(b, raw, s, g, losses, gradients, betaLoss, blankLb, softmax);
    }
    forall i: nat | i < |inputLengths|
      ensures Means(b, raw, s, g, blankLb, softmax, losses[..], betaLoss[..], gradients[..], i)
    {
      DeliveredMeans(b, raw, s, g, blankLb, softmax, losses[..], betaLoss[..], gradients[..], i);
    }
    return Done(betaLoss[..]), batch;
  }

  method MaxLength(lengths: seq<nat>) returns (m: nat)
    requires |lengths| >= 1
    ensures m == Largest(lengths, |lengths|) && m in lengths
  {
    LargestTaken(lengths, |lengths|);
    m := lengths[0];
    for i := 1 to |lengths|
      invariant m == Largest(lengths, i)
    {
      if lengths[i] > m { m := lengths[i]; }
    }
  }

  // ---- What the results are worth ----

  lemma NoWidth(width: nat, rows: nat)
    ensures width == 0 ==> rows * width == 0
  {
  }

  lemma Scaled(a: nat, b: nat, width: nat)
    ensures a <= b ==> a * width <= b * width
  {
  }

  lemma RowOf(width: nat, rows: nat, q: nat) returns (t: nat, i: nat)
    requires q < rows * width
    ensures t < rows && i < width && Row(width, t, i) == q
  {
    NoWidth(width, rows);
    t, i := q / width, q % width;
    Scaled(rows, t, width);
  }

  /** Step, item and class of the `k`-th cell of a tensor. */
  datatype Place = Place(t: nat, b: nat, c: nat)

  function NthPlace(batches: nat, classes: nat, k: nat): Place
    requires batches >= 1 && classes >= 1
  {
    Place(k / classes / batches, k / classes % batches, k % classes)
  }

  lemma Quotient(width: nat, rows: nat, q: nat)
    requires q < rows * width
    ensures width >= 1 && q / width < rows
  {
    NoWidth(width, rows);
    Scaled(rows, q / width, width);
  }

  lemma NthPlaceInside(steps: nat, batches: nat, classes: nat, k: nat)
    requires k < steps * batches * classes
    ensures batches >= 1 && classes >= 1
    ensures var p := NthPlace(batches, classes, k); p.t < steps && p.b < batches && p.c < classes
  {
    Quotient(classes, steps * batches, k);
    Quotient(batches, steps, k / classes);
  }

  lemma NthPlacesApart(batches: nat, classes: nat, k: nat, j: nat)
    requires batches >= 1 && classes >= 1 && NthPlace(batches, classes, k) == NthPlace(batches, classes, j)
    ensures k == j
  {
    var r, u := k / classes, j / classes;
    assert r == r / batches * batches + r % batches && u == u / batches * batches + u % batches;
    assert k == r * classes + k % classes && j == u * classes + j % classes;
  }

  ghost function Images(f: nat -> nat, n: nat): set<int> { if n == 0 then {} else Images(f, n - 1) + {f(n - 1)} }

  lemma {:induction false} ImagesAre(f: nat -> nat, n: nat, m: nat)
    requires n <= m && forall i: nat, j: nat :: i < m && j < m && f(i) == f(j) ==> i == j
    ensures |Images(f, n)| == n && forall q :: q in Images(f, n) ==> exists i: nat :: i < n && f(i) == q
  {
    if n > 0 {
      ImagesAre(f, n - 1, m);
      assert f(n - 1) !in Images(f, n - 1);
    }
  }

  lemma {:induction false} UptoSize(n: nat)
    ensures |Sums.Upto(n)| == n
  {
    if n > 0 { UptoSize(n - 1); }
  }

  /** One-to-one into as many places as there are numbers takes every place. */
  lemma Pigeonhole(f: nat -> nat, n: nat, q: nat) returns (i: nat)
    requires forall k: nat :: k < n ==> f(k) < n
    requires forall k: nat, j: nat :: k < n && j < n && f(k) == f(j) ==> k == j
    requires q < n
    ensures i < n && f(i) == q
  {
    ImagesAre(f, n, n);
    UptoSize(n);
    assert Images(f, n) <= Sums.Upto(n);
    if q !in Images(f, n) {
      assert Images(f, n) + {q} <= Sums.Upto(n);
      Bounded(Images(f, n) + {q}, Sums.Upto(n));
      assert false;
    }
    i :| i < n && f(i) == q;
  }

  lemma Bounded(a: set<int>, b: set<int>)
    requires a <= b
    ensures |a| <= |b|
  {
    assert a + (b - a) == b;
  }

  /** Strides that fit a tensor of exactly its cells and keep them apart leave no place over. */
  lemma PlaceOf(s: Strides, steps: nat, batches: nat, classes: nat, q: nat) returns (t: nat, b: nat, c: nat)
    requires q < steps * batches * classes && Separate(s, steps, batches, classes)
    requires forall b: nat :: b < batches ==> Fits(s, steps, b, classes, steps * batches * classes)
    ensures t < steps && b < batches && c < classes && Offset(s, t, b, c) == q
  {
    hide Offset, NthPlace, Fits, Separate;
    var n := steps * batches * classes;
    NthPlaceInside(steps, batches, classes, q);
    var f: nat -> nat := k => OffsetAt(s, NthPlace(batches, classes, k));
    forall k: nat | k < n ensures f(k) < n {
      NthPlaceInside(steps, batches, classes, k);
      PlaceFits(s, steps, batches, classes, NthPlace(batches, classes, k));
    }
    forall k: nat, j: nat | k < n && j < n && f(k) == f(j) ensures k == j {
      NthPlaceInside(steps, batches, classes, k);
      NthPlaceInside(steps, batches, classes, j);
      PlacesApart(s, steps, batches, classes, NthPlace(batches, classes, k), NthPlace(batches, classes, j));
      NthPlacesApart(batches, classes, k, j);
    }
    var k := Pigeonhole(f, n, q);
    NthPlaceInside(steps, batches, classes, k);
    var p := NthPlace(batches, classes, k);
    t, b, c := p.t, p.b, p.c;
  }

  function OffsetAt(s: Strides, p: Place): nat { Offset(s, p.t, p.b, p.c) }

  lemma PlaceFits(s: Strides, steps: nat, batches: nat, classes: nat, p: Place)
    requires p.t < steps && p.b < batches && p.c < classes
    requires forall b: nat :: b < batches ==> Fits(s, steps, b, classes, steps * batches * classes)
    ensures OffsetAt(s, p) < steps * batches * classes
  {
    hide Offset;
    assert Fits(s, steps, p.b, classes, steps * batches * classes);
  }

  lemma PlacesApart(s: Strides, steps: nat, batches: nat, classes: nat, p: Place, q: Place)
    requires Separate(s, steps, batches, classes) && OffsetAt(s, p) == OffsetAt(s, q)
    requires p.t < steps && p.b < batches && p.c < classes && q.t < steps && q.b < batches && q.c < classes
    ensures p == q
  {
    hide Offset;
  }

  /**
   Two deliveries of the same problem agree in every loss, and in every gradient cell exactly
   when their padding does: the reference pads with zeros, the emulator leaves the caller's cells.
   */
  lemma DeliveriesAgree(batch: Batch, probs: seq<real>, s: Strides, g: Strides, blankLb: int, softmax: bool,
                        losses: seq<real>, betaLoss: seq<real>, gradients: seq<real>, padding: seq<real>,
                        losses': seq<real>, betaLoss': seq<real>, gradients': seq<real>, padding': seq<real>)
    requires |gradients| == |gradients'| == batch.maxSteps * |batch.inputLengths| * batch.classes
    requires |losses| == |losses'| == |betaLoss| == |betaLoss'| == |batch.inputLengths|
    requires StridesFit(batch, g, |gradients|) && Separate(g, batch.maxSteps, |batch.inputLengths|, batch.classes)
    requires PaddingIs(batch, g, gradients, padding) && PaddingIs(batch, g, gradients', padding')
    requires forall i: nat :: i < |batch.inputLengths| ==>
               && Delivers(batch, probs, s, g, blankLb, softmax, losses, betaLoss, gradients, i)
               && Delivers(batch, probs, s, g, blankLb, softmax, losses', betaLoss', gradients', i)
    ensures losses == losses' && betaLoss == betaLoss'
    ensures gradients == gradients' <==> PaddingIs(batch, g, padding, padding')
  {
    hide Offset, ModeGradient, ItemOf;
    hide Lattice.Likelihood;
    var n := |batch.inputLengths|;
    forall i | 0 <= i < n ensures losses[i] == losses'[i] && betaLoss[i] == betaLoss'[i] {
      assert Delivers(batch, probs, s, g, blankLb, softmax, losses, betaLoss, gradients, i);
    }
    if PaddingIs(batch, g, padding, padding') {
      forall q | 0 <= q < |gradients| ensures gradients[q] == gradients'[q] {
        var t, i, c := PlaceOf(g, batch.maxSteps, n, batch.classes, q);
        SameCell(batch, probs, s, g, blankLb, softmax, losses, betaLoss, gradients, padding, losses', betaLoss',
                 gradients', padding', i, t, c);
      }
    }
    if gradients == gradients' { SamePadding(batch, g, gradients, padding, padding'); }
  }

  // ---- An input on which the two paths leave different gradients ----

  /** Two items, the second one step shorter, two classes, and the label [1] for both. */
  const Uneven: Batch := Batch(2, 2, [2, 1], [1, 1], [1, 1])

  const Halves: seq<real> := seq(8, _ => 0.5)

  lemma UnevenLabels()
    ensures Uneven.Shaped() && Uneven.Lab(0) == [1] && Uneven.Lab(1) == [1]
    ensures Uneven.GoodLabels(0) && Uneven.Accepted()
  {
    assert Sum([1, 1], 0) == 0 && Sum([1, 1], 1) == 1 && Sum([1, 1], 2) == 2;
    assert Repeats([1], 1) == Repeats([1], 0) == 0;
    forall i: nat | i < 2 ensures Uneven.ItemAccepted(i) && Uneven.Lab(i) == [1] { }
  }

  lemma UnevenIsCallable()
    ensures Callable(Uneven, Halves, Packed(2, 2), Packed(2, 2), 0)
  {
    UnevenLabels();
    PackedIsSound(2, 2, 2);
  }

  /** After the second item's only step, ones and zeros are not the same padding. */
  lemma UnevenPadding()
    ensures !PaddingIs(Uneven, Packed(2, 2), seq(8, _ => 1.0), seq(8, _ => 0.0))
  {
    var ones, zeros := seq(8, _ => 1.0), seq(8, _ => 0.0);
    assert Offset(Packed(2, 2), 1, 1, 0) == 6 && ones[6] != zeros[6] && Uneven.inputLengths[1] == 1;
  }

  /** Started on gradients that are all one, the two paths leave different ones, though both run to the end. */
  method DifferentPaths(softmax: bool) returns (emulated: seq<real>, referenced: seq<real>)
    ensures emulated != referenced
  {
    hide Delivers, PaddingIs, Callable, Used, DimsOf;
    UnevenLabels();
    UnevenIsCallable();
    UnevenPadding();
    var losses, betaLoss := new real[2](_ => 0.0), new real[2](_ => 0.0);
    var gradients := new real[8](_ => 1.0);
    assert gradients[..] == seq(8, _ => 1.0);
    var size := GetWorkspaceSize(Uneven, DimsOf(Uneven));
    var ws := new real[size.value](_ => 0.0);
    var ran := RunEmulator(Uneven, Halves, Packed(2, 2), DimsOf(Uneven), Packed(2, 2), ws, losses, gradients, betaLoss,
                           0, softmax);
    emulated := gradients[..];
    ghost var losses1, beta1 := losses[..], betaLoss[..];
    RunReference(Uneven, Halves, Packed(2, 2), Packed(2, 2), losses, gradients, betaLoss, 0, softmax);
    referenced := gradients[..];
    CallableStrides(Uneven, Halves, Packed(2, 2), Packed(2, 2), 0);
    DeliveriesAgree(Uneven, Used(Uneven, Halves, softmax), Packed(2, 2), Packed(2, 2), 0, softmax, losses1, beta1,
                    emulated, seq(8, _ => 1.0), losses[..], betaLoss[..], referenced, seq(8, _ => 0.0));
  }

  lemma CallableStrides(batch: Batch, raw: seq<real>, s: Strides, g: Strides, blankLb: int)
    requires Callable(batch, raw, s, g, blankLb)
    ensures batch.Shaped() && |raw| == batch.maxSteps * |batch.inputLengths| * batch.classes && AllPositive(raw)
    ensures StridesFit(batch, g, |raw|) && Separate(g, batch.maxSteps, |batch.inputLengths|, batch.classes)
  {
  }

  lemma SameCell(batch: Batch, probs: seq<real>, s: Strides, g: Strides, blankLb: int, softmax: bool, losses: seq<real>,
                 betaLoss: seq<real>, gradients: seq<real>, padding: seq<real>, losses': seq<real>,
                 betaLoss': seq<real>, gradients': seq<real>, padding': seq<real>, i: nat, t: nat, c: nat)
    requires i < |batch.inputLengths| && t < batch.maxSteps && c < batch.classes && |gradients| == |gradients'|
    requires PaddingIs(batch, g, gradients, padding) && PaddingIs(batch, g, gradients', padding')
    requires PaddingIs(batch, g, padding, padding')
    requires Delivers(batch, probs, s, g, blankLb, softmax, losses, betaLoss, gradients, i)
    requires Delivers(batch, probs, s, g, blankLb, softmax, losses', betaLoss', gradients', i)
    ensures Offset(g, t, i, c) < |gradients| && gradients[Offset(g, t, i, c)] == gradients'[Offset(g, t, i, c)]
  {
    hide Offset, ModeGradient, ItemOf;
    hide Lattice.Likelihood;
    assert Fits(g, batch.maxSteps, i, batch.classes, |gradients|);
  }

  lemma SamePadding(batch: Batch, g: Strides, gradients: seq<real>, padding: seq<real>, padding': seq<real>)
    requires PaddingIs(batch, g, gradients, padding) && PaddingIs(batch, g, gradients, padding')
    ensures PaddingIs(batch, g, padding, padding')
  {
    hide Offset;
    forall i: nat | i < |batch.inputLengths|
      ensures Fits(g, batch.maxSteps, i, batch.classes, |padding|)
           && forall t: nat, c: nat :: batch.inputLengths[i] <= t < batch.maxSteps && c < batch.classes ==>
                padding[Offset(g, t, i, c)] == padding'[Offset(g, t, i, c)]
    {
      assert Fits(g, batch.maxSteps, i, batch.classes, |gradients|);
    }
  }

  /** The delivered gradients of the classes below `c` at one step. */
  function DeliveredTotal(gradients: seq<real>, g: Strides, t: nat, i: nat, c: nat): real
    requires forall d: nat :: d < c ==> Offset(g, t, i, d) < |gradients|
  {
    if c == 0 then 0.0 else DeliveredTotal(gradients, g, t, i, c - 1) + gradients[Offset(g, t, i, c - 1)]
  }

  lemma {:induction false} DeliveredIsSoftmaxTotal(gradients: seq<real>, g: Strides, i: nat, l: Lattice, t: nat, c: nat)
    requires l.Valid() && Positive(l.y) && l.Likelihood(0) > 0.0 && t < |l.y| && c <= l.classes
    requires HoldsGradients(gradients, g, i, l, true)
    ensures DeliveredTotal(gradients, g, t, i, c) == SoftmaxTotal(l, t, c)
  {
    hide Offset, SoftmaxGradient;
    hide Lattice.Likelihood;
    if c > 0 { DeliveredIsSoftmaxTotal(gradients, g, i, l, t, c - 1); }
  }

  /** With packed probabilities every row of an item's table is a softmax row. */
  lemma RowsAreDistributions(batch: Batch, raw: seq<real>, blankLb: int, i: nat, t: nat)
    requires batch.Shaped() && i < |batch.inputLengths| && t < batch.inputLengths[i] <= batch.maxSteps
    requires AllPositive(raw) && |raw| == batch.maxSteps * |batch.inputLengths| * batch.classes
    requires Fits(Packed(|batch.inputLengths|, batch.classes), batch.inputLengths[i], i, batch.classes, |raw|)
    ensures var s := Packed(|batch.inputLengths|, batch.classes);
            var l := ItemOf(batch, Used(batch, raw, true), s, blankLb, i);
            |l.y| == batch.inputLengths[i] && |l.y[t]| == batch.classes && RowTotal(l.y[t], batch.classes) == 1.0
  {
    var n, classes := |batch.inputLengths|, batch.classes;
    var s := Packed(n, classes);
    var probs := Used(batch, raw, true);
    var y := TableOf(probs, s, i, batch.inputLengths[i], classes);
    var r := Row(n, t, i);
    RowInside(n, batch.maxSteps, t, i);
    RowValue(classes, batch.maxSteps * n);
    SoftmaxRowsAt(raw, classes, batch.maxSteps * n, r);
    var base := Row(classes, r, 0);
    hide SoftmaxRow, SoftmaxRows, Packed;
    forall c | 0 <= c < classes ensures y[t][c] == SoftmaxRow(raw[base..base + classes])[c] {
      PackedOffset(batch.maxSteps, n, classes, t, i, c);
      assert Offset(s, t, i, c) == base + c;
      assert probs[base..base + classes][c] == probs[base + c];
    }
    assert y[t] == SoftmaxRow(raw[base..base + classes]);
    SoftmaxRowIsDistribution(raw[base..base + classes]);
  }

  /** Behind a softmax layer the delivered gradients of every valid step cancel out over the classes. */
  lemma DeliveredGradientsCancel(batch: Batch, raw: seq<real>, g: Strides, blankLb: int, losses: seq<real>,
                                 betaLoss: seq<real>, gradients: seq<real>, i: nat, t: nat)
    requires Callable(batch, raw, Packed(|batch.inputLengths|, batch.classes), g, blankLb) && batch.Accepted()
    requires i < |batch.inputLengths| && t < batch.inputLengths[i]
    requires Delivers(batch, Used(batch, raw, true), Packed(|batch.inputLengths|, batch.classes), g, blankLb, true,
                      losses, betaLoss, gradients, i)
    ensures forall d: nat :: d < batch.classes ==> Offset(g, t, i, d) < |gradients|
    ensures DeliveredTotal(gradients, g, t, i, batch.classes) == 0.0
  {
    var s := Packed(|batch.inputLengths|, batch.classes);
    CallableIsReady(batch, raw, s, g, blankLb, true);
    ItemReady(batch, Used(batch, raw, true), s, g, blankLb, i);
    RowsAreDistributions(batch, raw, blankLb, i, t);
    var l := ItemOf(batch, Used(batch, raw, true), s, blankLb, i);
    hide Offset, SoftmaxGradient, PlainGradient, Used, ItemOf, Packed, SoftmaxTotal;
    hide Lattice.Likelihood, Lattice.ClassMass;
    assert HoldsGradients(gradients, g, i, l, true);
    DeliveredIsSoftmaxTotal(gradients, g, i, l, t, batch.classes);
    SoftmaxConservesMass(l, t);
  }
}
