/** Whole batches: the length checks, the flat workspace, and both paths against one result. */
module CtcRun {
  import opened CtcSpec
  import opened CtcLayout
  import opened CtcGradient
  import opened CtcFeasible
  import opened CtcTight
  import opened CtcReference
  import opened CtcEmulator
  import opened CtcSoftmax

  datatype Option<T> = None | Some(value: T)

  function Sum(lengths: seq<nat>, n: nat): nat
    requires n <= |lengths|
  {
    if n == 0 then 0 else Sum(lengths, n - 1) + lengths[n - 1]
  }

  lemma {:induction false} SumGrows(lengths: seq<nat>, m: nat, n: nat)
    requires m <= n <= |lengths|
    ensures Sum(lengths, m) <= Sum(lengths, n)
  {
    if m < n { SumGrows(lengths, m, n - 1); }
  }

  function Largest(lengths: seq<nat>, n: nat): (m: nat)
    requires n <= |lengths|
    ensures forall i :: 0 <= i < n ==> lengths[i] <= m
  {
    if n == 0 then 0
    else
      var m := Largest(lengths, n - 1);
      if m >= lengths[n - 1] then m else lengths[n - 1]
  }

  /** The largest length is one of the lengths, so nothing smaller would do. */
  lemma {:induction false} LargestTaken(lengths: seq<nat>, n: nat)
    requires 1 <= n <= |lengths|
    ensures exists i :: 0 <= i < n && lengths[i] == Largest(lengths, n)
  {
    assert Largest(lengths, 0) == 0;
    if n == 1 || Largest(lengths, n) == lengths[n - 1] {
      assert lengths[n - 1] == Largest(lengths, n);
    } else {
      LargestTaken(lengths, n - 1);
    }
  }

  datatype Batch = Batch(maxSteps: nat, classes: nat, inputLengths: seq<nat>, labelLengths: seq<nat>,
                         labels: seq<int>) {
    predicate Shaped() {
      && classes >= 1
      && |labelLengths| == |inputLengths|
      && Sum(labelLengths, |labelLengths|) <= |labels|
    }

    /** The label of item `i`, out of the concatenation of all labels. */
    function Lab(i: nat): (lab: seq<int>)
      requires Shaped() && i < |inputLengths|
      ensures |lab| == labelLengths[i]
    {
      SumGrows(labelLengths, i + 1, |labelLengths|);
      labels[Sum(labelLengths, i)..Sum(labelLengths, i) + labelLengths[i]]
    }

    function RepeatsOf(i: nat): nat
      requires Shaped() && i < |inputLengths|
    {
      Repeats(Lab(i), labelLengths[i])
    }

    /** What callers must see to: labels are not empty and hold neither blanks nor negative classes. */
    ghost predicate GoodLabels(blankLb: int)
      requires Shaped()
    {
      forall i: nat :: i < |inputLengths| ==>
        labelLengths[i] >= 1
        && forall k :: 0 <= k < |Lab(i)| ==> 0 <= Lab(i)[k] && Lab(i)[k] != ClampBlank(blankLb, classes)
    }

    ghost predicate ItemAccepted(i: nat)
      requires Shaped() && i < |inputLengths|
    {
      && inputLengths[i] <= maxSteps
      && (forall k :: 0 <= k < |Lab(i)| ==> Lab(i)[k] < classes)
      && Feasible(Lab(i), inputLengths[i])
    }

    /** What the checks see to. */
    ghost predicate Accepted()
      requires Shaped()
    {
      forall i: nat :: i < |inputLengths| ==> ItemAccepted(i)
    }
  }

  // ---- Checks ----

  /** Counts the adjacent repeats of one label, or finds a class out of range. */
  method ScanLabel(lab: seq<int>, classes: nat) returns (repeat: Option<nat>)
    ensures repeat.Some? <==> forall k :: 0 <= k < |lab| ==> lab[k] < classes
    ensures repeat.Some? ==> repeat.value == Repeats(lab, |lab|)
  {
    var count := 0;
    for j := 0 to |lab|
      invariant forall k :: 0 <= k < j ==> lab[k] < classes
      invariant count == Repeats(lab, j)
    {
      if lab[j] >= classes { return None; }
      if j > 0 {
        if lab[j] == lab[j - 1] { count := count + 1; }
      }
    }
    return Some(count);
  }

  /** Input length, classes and feasibility of one item. */
  method CheckItem(batch: Batch, i: nat) returns (repeat: Option<nat>)
    requires batch.Shaped() && i < |batch.inputLengths|
    ensures repeat.Some? <==> batch.ItemAccepted(i)
    ensures repeat.Some? ==> repeat.value == batch.RepeatsOf(i)
  {
    if batch.inputLengths[i] > batch.maxSteps { return None; }
    repeat := ScanLabel(batch.Lab(i), batch.classes);
    if repeat == None { return None; }
    if batch.labelLengths[i] + repeat.value > batch.inputLengths[i] { return None; }
  }

  datatype Checked = Rejected | Passed(repeat: seq<nat>, offsets: seq<nat>, maxLabel: nat, total: nat)

  /** The checks shared by the workspace query and the emulator. */
  method CheckBatch(batch: Batch) returns (r: Checked)
    requires batch.Shaped()
    ensures r.Passed? <==> batch.Accepted()
    ensures r.Passed? ==>
              && |r.repeat| == |r.offsets| == |batch.inputLengths|
              && (forall i: nat :: i < |batch.inputLengths| ==>
                    r.repeat[i] == batch.RepeatsOf(i) && r.offsets[i] == Sum(batch.labelLengths, i))
              && r.maxLabel == Largest(batch.labelLengths, |batch.labelLengths|)
              && r.total == Sum(batch.labelLengths, |batch.labelLengths|)
  {
    hide Batch.Lab, Batch.RepeatsOf, Batch.ItemAccepted;
    var n := |batch.inputLengths|;
    var repeat, offsets := seq(n, _ => 0), seq(n, _ => 0);
    var maxLabel, total := 0, 0;
    for i := 0 to n
      invariant |repeat| == |offsets| == n
      invariant forall k: nat :: k < i ==> batch.ItemAccepted(k)
      invariant forall k: nat :: k < i ==> repeat[k] == batch.RepeatsOf(k)
      invariant forall k: nat :: k < i ==> offsets[k] == Sum(batch.labelLengths, k)
      invariant maxLabel == Largest(batch.labelLengths, i) && total == Sum(batch.labelLengths, i)
    {
      var count := CheckItem(batch, i);
      if count == None { return Rejected; }
      assert batch.ItemAccepted(i);
      maxLabel := if maxLabel >= batch.labelLengths[i] then maxLabel else batch.labelLengths[i];
      total := total + batch.labelLengths[i];
      repeat := repeat[i := count.value];
      offsets := offsets[i := if i == 0 then 0 else offsets[i - 1] + batch.labelLengths[i - 1]];
    }
    return Passed(repeat, offsets, maxLabel, total);
  }

  // ---- Workspace ----

  /** The regions of the flat workspace, in order. */
  datatype Regions = Regions(batches: nat, total: nat, maxLabel: nat, classes: nat, maxSteps: nat) {
    function Width(): nat { 2 * maxLabel + 1 }

    function Labels(): nat { 4 * batches }

    function LabelPrimes(j: nat): nat { 4 * batches + total + Row(Width(), j, 0) }

    /** Cells of one alpha table of full size. */
    function Span(): nat { Row(Width(), maxSteps, 0) }

    function Probs(): nat { LabelPrimes(batches) }

    function Alphas(j: nat): nat { Probs() + classes * batches * maxSteps + Row(Span(), j, 0) }

    function Size(): nat { Alphas(batches) }
  }

  /**
   The size written out: header and labels, an extended label for each item, the probabilities, and a forward table
   of full size for each item.
   */
  lemma SizeIs(r: Regions)
    ensures r.Size() == 4 * r.batches + r.total + r.batches * (2 * r.maxLabel + 1) + r.classes * r.batches * r.maxSteps
                        + r.batches * (r.maxSteps * (2 * r.maxLabel + 1))
  {
    RowValue(r.Width(), r.batches);
    RowValue(r.Width(), r.maxSteps);
    RowValue(r.Span(), r.batches);
    hide Row;
  }

  /** Every item's regions lie between the shared ones and the end, one after the other without a gap. */
  lemma RegionsInside(r: Regions, j: nat)
    requires j < r.batches
    ensures r.LabelPrimes(j) + r.Width() == r.LabelPrimes(j + 1) <= r.Probs()
    ensures r.Alphas(j) + r.Span() == r.Alphas(j + 1) <= r.Size()
  {
    RowNext(r.Width(), j);
    RowNext(r.Span(), j);
    RowBefore(r.Width(), j, r.batches);
    RowBefore(r.Span(), j, r.batches);
    hide Row;
  }

  /** The regions of two items never meet. */
  lemma RegionsApart(r: Regions, i: nat, j: nat)
    requires i < j
    ensures r.LabelPrimes(i) + r.Width() <= r.LabelPrimes(j)
    ensures r.Alphas(i) + r.Span() <= r.Alphas(j)
  {
    RowBefore(r.Width(), i, j);
    RowBefore(r.Span(), i, j);
    hide Row;
  }

  /** The extended labels start right after the labels, the alphas right after the probabilities. */
  lemma RegionsStart(r: Regions)
    ensures r.LabelPrimes(0) == r.Labels() + r.total
    ensures r.Alphas(0) == r.Probs() + r.classes * r.batches * r.maxSteps
  {
    RowZero(r.Width());
    RowZero(r.Span());
    hide Row;
  }

  /** The dimensions a tensor descriptor names. */
  datatype Dims = Dims(steps: nat, batches: nat, classes: nat)

  function DimsOf(batch: Batch): Dims { Dims(batch.maxSteps, |batch.inputLengths|, batch.classes) }

  /** Cells needed, or nothing when the two tensors differ or the batch is not acceptable. */
  method GetWorkspaceSize(batch: Batch, gradientDims: Dims) returns (size: Option<nat>)
    requires batch.Shaped()
    ensures size.Some? <==> gradientDims == DimsOf(batch) && batch.Accepted()
    ensures size.Some? ==> size.value == RegionsOf(batch).Size()
  {
    hide Regions.Size, Batch.Accepted;
    if gradientDims != DimsOf(batch) { return None; }
    var r := CheckBatch(batch);
    if r.Rejected? { return None; }
    var n := |batch.inputLengths|;
    var cells := CountCells(n, r.total, r.maxLabel, batch.classes, batch.maxSteps);
    return Some(cells);
  }

  method CountCells(n: nat, total: nat, maxLabel: nat, classes: nat, maxSteps: nat) returns (cells: nat)
    ensures cells == Regions(n, total, maxLabel, classes, maxSteps).Size()
  {
    var width := 2 * maxLabel + 1;
    var ints := n + n + n + n + total + n * width;
    var reals := maxSteps * n * classes + maxSteps * n * width;
    SizesAgree(Regions(n, total, maxLabel, classes, maxSteps));
    cells := reals + ints;
  }

  lemma SizesAgree(r: Regions)
    ensures r.Size() == 4 * r.batches + r.total + r.batches * r.Width()
                        + (r.maxSteps * r.batches * r.classes + r.maxSteps * r.batches * r.Width())
  {
    Commute(r.maxSteps, r.batches, r.classes, r.Width());
    RowValue(r.Width(), r.maxSteps);
    RowValue(r.Width(), r.batches);
    RowValue(r.Span(), r.batches);
    hide Row, Regions.Width;
  }

  lemma Commute(steps: nat, n: nat, classes: nat, width: nat)
    ensures steps * n * classes == classes * n * steps
    ensures steps * n * width == n * (steps * width)
  {
    assert n * (steps * width) == (n * steps) * width;
  }

  function RegionsOf(batch: Batch): Regions
    requires batch.Shaped()
  {
    var n := |batch.labelLengths|;
    Regions(n, Sum(batch.labelLengths, n), Largest(batch.labelLengths, n), batch.classes, batch.maxSteps)
  }

  // ---- Results ----

  /** Strides under which every item's probabilities lie inside the tensor. */
  ghost predicate StridesFit(batch: Batch, s: Strides, size: nat) {
    forall b: nat :: b < |batch.inputLengths| ==> Fits(s, batch.maxSteps, b, batch.classes, size)
  }

  /** What both paths are given; `probs` is what the tables are computed from, after softmax if any. */
  ghost predicate Ready(batch: Batch, probs: seq<real>, s: Strides, g: Strides, blankLb: int) {
    && batch.Shaped() && batch.GoodLabels(blankLb) && batch.Accepted()
    && |probs| == batch.maxSteps * |batch.inputLengths| * batch.classes && AllPositive(probs)
    && StridesFit(batch, s, |probs|) && StridesFit(batch, g, |probs|)
    && Separate(g, batch.maxSteps, |batch.inputLengths|, batch.classes)
  }

  function ItemOf(batch: Batch, probs: seq<real>, s: Strides, blankLb: int, i: nat): Lattice
    requires batch.Shaped() && i < |batch.inputLengths|
    requires Fits(s, batch.inputLengths[i], i, batch.classes, |probs|)
  {
    ItemLattice(probs, s, i, batch.inputLengths[i], batch.classes, batch.Lab(i), blankLb)
  }

  /** Loss, beta loss and gradients of one item are those of the unsuppressed tables. */
  ghost predicate Delivers(batch: Batch, probs: seq<real>, s: Strides, g: Strides, blankLb: int, softmax: bool,
                           losses: seq<real>, betaLoss: seq<real>, gradients: seq<real>, i: nat)
  {
    && batch.Shaped() && i < |batch.inputLengths| && i < |losses| && i < |betaLoss|
    && Fits(s, batch.inputLengths[i], i, batch.classes, |probs|)
    && Fits(g, batch.inputLengths[i], i, batch.classes, |gradients|)
    && var l := ItemOf(batch, probs, s, blankLb, i);
    && l.Valid() && |l.y| == batch.inputLengths[i] && l.classes == batch.classes
    && Positive(l.y) && l.Likelihood(0) > 0.0
    && losses[i] == l.Likelihood(0)
    && betaLoss[i] == l.Likelihood(0)
    && forall t: nat, c: nat :: t < batch.inputLengths[i] && c < batch.classes ==>
         gradients[Offset(g, t, i, c)] == ModeGradient(l, 0, 0, t, c, softmax)
  }

  /** Everything the item methods ask for follows from the checks. */
  lemma ItemReady(batch: Batch, probs: seq<real>, s: Strides, g: Strides, blankLb: int, i: nat)
    requires Ready(batch, probs, s, g, blankLb) && i < |batch.inputLengths|
    ensures batch.inputLengths[i] <= batch.maxSteps
    ensures ItemOk(probs, s, i, batch.inputLengths[i], batch.classes, batch.Lab(i), blankLb)
    ensures Fits(g, batch.inputLengths[i], i, batch.classes, |probs|)
    ensures Separate(g, batch.inputLengths[i], |batch.inputLengths|, batch.classes)
    ensures var l := ItemOf(batch, probs, s, blankLb, i);
            var f := Suppress(batch.Lab(i), batch.inputLengths[i]);
            && l.Valid() && l.Alternates() && Positive(l.y) && Feasible(batch.Lab(i), |l.y|)
            && |l.y| == batch.inputLengths[i] && l.classes == batch.classes
            && l.blank == ClampBlank(blankLb, batch.classes) && l.lp == LabelPrime(batch.Lab(i), l.blank)
            && l.Likelihood(0) > 0.0 && l.Likelihood(f) == l.Likelihood(0)
            && l.BetaLoss(f) == l.Likelihood(0) && l.BetaLoss(0) == l.Likelihood(0)
            && (forall t: nat, c: nat :: t < |l.y| && c < l.classes ==>
                  l.y[t][c] == probs[Offset(s, t, i, c)]
                  && l.ClassMass(f, f, t, c, |l.lp|) == l.ClassMass(0, 0, t, c, |l.lp|))
  {
    hide Lattice.Alpha, Lattice.Beta, Lattice.ClassMass, Lattice.Likelihood, Lattice.BetaLoss;
    hide LabelPrime, Repeats, Suppress;
    var lab, steps, blank := batch.Lab(i), batch.inputLengths[i], ClampBlank(blankLb, batch.classes);
    assert batch.ItemAccepted(i);
    assert Fits(s, batch.maxSteps, i, batch.classes, |probs|);
    assert Fits(g, batch.maxSteps, i, batch.classes, |probs|);
    ItemFacts(probs, s, i, steps, batch.classes, lab, blankLb);
    var l := ItemOf(batch, probs, s, blankLb, i);
    var y := TableOf(probs, s, i, steps, batch.classes);
    assert l == LatticeOf(y, lab, blank, batch.classes);
    LikelihoodPositive(y, lab, blank, batch.classes);
    SuppressionIsHarmless(y, lab, blank, batch.classes);
    BetaLossIsLikelihood(l);
  }

  // ---- One item on the fast path ----

  /** The item's extended label and forward table, each at its place in the workspace. */
  ghost predicate Kept(batch: Batch, ws: seq<real>, probs: seq<real>, s: Strides, blankLb: int, i: nat, lpOff: int,
                       alphaOff: int) {
    && batch.Shaped() && i < |batch.inputLengths| && Fits(s, batch.inputLengths[i], i, batch.classes, |probs|)
    && var l := ItemOf(batch, probs, s, blankLb, i);
    && l.Valid() && |l.y| == batch.inputLengths[i] && |l.lp| == 2 * batch.labelLengths[i] + 1
    && HoldsInts(ws, lpOff, l.lp) && AlphaTable(ws, alphaOff, l, Suppress(batch.Lab(i), batch.inputLengths[i]))
  }

  lemma KeptFrom(batch: Batch, ws: seq<real>, probs: seq<real>, s: Strides, blankLb: int, i: nat, lpOff: int,
                 alphaOff: int, l: Lattice)
    requires batch.Shaped() && i < |batch.inputLengths| && Fits(s, batch.inputLengths[i], i, batch.classes, |probs|)
    requires l == ItemOf(batch, probs, s, blankLb, i) && l.Valid() && |l.y| == batch.inputLengths[i]
    requires |l.lp| == 2 * batch.labelLengths[i] + 1
    requires HoldsInts(ws, lpOff, l.lp) && AlphaTable(ws, alphaOff, l, Suppress(batch.Lab(i), batch.inputLengths[i]))
    ensures Kept(batch, ws, probs, s, blankLb, i, lpOff, alphaOff)
  {
    hide Suppress, Fits, HoldsInts, AlphaTable, ItemOf;
    hide Lattice.Valid;
  }

  /** They do not change while only cells elsewhere do. */
  lemma KeptStays(batch: Batch, before: seq<real>, after: seq<real>, probs: seq<real>, s: Strides, blankLb: int, i: nat,
                  lpOff: int, alphaOff: int, width: nat, span: nat)
    requires Kept(batch, before, probs, s, blankLb, i, lpOff, alphaOff) && |after| == |before|
    requires 2 * batch.labelLengths[i] + 1 <= width && batch.inputLengths[i] * (2 * batch.labelLengths[i] + 1) <= span
    requires forall q :: 0 <= q < |after| && (lpOff <= q < lpOff + width || alphaOff <= q < alphaOff + span) ==>
               after[q] == before[q]
    ensures Kept(batch, after, probs, s, blankLb, i, lpOff, alphaOff)
  {
    hide Suppress, Fits, Row, ItemOf, HoldsAlpha;
    hide Lattice.Alpha, Lattice.Valid;
    var l := ItemOf(batch, probs, s, blankLb, i);
    forall t: nat | t < |l.y|
      ensures HoldsAlpha(after, alphaOff + Row(|l.lp|, t, 0), l, Suppress(batch.Lab(i), batch.inputLengths[i]), t) {
      RowsStack(|l.lp|, |l.y|);
      AlphaRowStays(before, after, alphaOff + Row(|l.lp|, t, 0), l, Suppress(batch.Lab(i), batch.inputLengths[i]), t);
    }
  }

  lemma AlphaRowStays(before: seq<real>, after: seq<real>, base: int, l: Lattice, first: nat, t: nat)
    requires l.Valid() && t < |l.y| && HoldsAlpha(before, base, l, first, t) && |after| == |before|
    requires forall q :: 0 <= q < |after| && base <= q < base + |l.lp| ==> after[q] == before[q]
    ensures HoldsAlpha(after, base, l, first, t)
  {
    hide Lattice.Alpha;
  }

  lemma SameGradient(l: Lattice, f: nat, t: nat, c: nat, softmax: bool)
    requires l.Valid() && Positive(l.y) && t < |l.y| && c < l.classes
    requires l.Likelihood(0) > 0.0 && l.Likelihood(f) == l.Likelihood(0)
    requires l.ClassMass(f, f, t, c, |l.lp|) == l.ClassMass(0, 0, t, c, |l.lp|)
    ensures ModeGradient(l, f, f, t, c, softmax) == ModeGradient(l, 0, 0, t, c, softmax)
  {
    hide Lattice.Likelihood, Lattice.ClassMass;
  }

  /** What the suppressed tables give is what Delivers asks for. */
  lemma SuppressedDelivers(batch: Batch, probs: seq<real>, s: Strides, g: Strides, blankLb: int, softmax: bool,
                           losses: seq<real>, betaLoss: seq<real>, gradients: seq<real>, j: nat)
    requires Ready(batch, probs, s, g, blankLb) && j < |batch.inputLengths| && j < |losses| && j < |betaLoss|
    requires |gradients| == |probs| && Fits(s, batch.inputLengths[j], j, batch.classes, |probs|)
    requires Fits(g, batch.inputLengths[j], j, batch.classes, |probs|)
    requires var l, f := ItemOf(batch, probs, s, blankLb, j), Suppress(batch.Lab(j), batch.inputLengths[j]);
             && l.Valid() && Positive(l.y) && |l.y| == batch.inputLengths[j] && l.classes == batch.classes
             && l.Likelihood(f) > 0.0 && losses[j] == l.Likelihood(f) && betaLoss[j] == l.BetaLoss(f)
             && forall t: nat, c: nat :: t < batch.inputLengths[j] && c < batch.classes ==>
                  gradients[Offset(g, t, j, c)] == ModeGradient(l, f, f, t, c, softmax)
    ensures Delivers(batch, probs, s, g, blankLb, softmax, losses, betaLoss, gradients, j)
  {
    ItemReady(batch, probs, s, g, blankLb, j);
    var l, f := ItemOf(batch, probs, s, blankLb, j), Suppress(batch.Lab(j), batch.inputLengths[j]);
    hide Ready, Suppress, LabelPrime, Offset, ModeGradient, ItemLattice, Feasible;
    hide Lattice.ClassMass, Lattice.Likelihood, Lattice.BetaLoss;
    forall t: nat, c: nat | t < |l.y| && c < l.classes
      ensures gradients[Offset(g, t, j, c)] == ModeGradient(l, 0, 0, t, c, softmax)
    {
      SameGradient(l, f, t, c, softmax);
    }
  }

  /** Forward table, loss and gradients of one item, given where its data lie. */
  method LaunchItem(ws: array<real>, probOff: nat, labOff: nat, labelLen: nat, inputLen: nat, classes: nat, s: Strides,
                    g: Strides, j: nat, n: nat, repeat: nat, lpOff: nat, alphaOff: nat, losses: array<real>,
                    gradients: array<real>, betaLoss: array<real>, blankLb: int, softmax: bool, ghost batch: Batch,
                    ghost probs: seq<real>, ghost span: nat)
    requires Ready(batch, probs, s, g, blankLb) && j < n == |batch.inputLengths| && classes == batch.classes
    requires inputLen == batch.inputLengths[j] && labelLen == batch.labelLengths[j] && repeat == batch.RepeatsOf(j)
    requires HoldsInts(ws[..], labOff, batch.Lab(j))
    requires probOff + |probs| <= ws.Length && ws[probOff..probOff + |probs|] == probs
    requires labOff + labelLen <= lpOff && lpOff + (2 * labelLen + 1) <= probOff && probOff + |probs| <= alphaOff
    requires span == inputLen * (2 * labelLen + 1) && alphaOff + span <= ws.Length
    requires forall q :: alphaOff <= q < alphaOff + span ==> ws[q] == 0.0
    requires j < losses.Length && j < betaLoss.Length && gradients.Length == |probs|
    requires ws != losses && ws != gradients && ws != betaLoss && losses != gradients && losses != betaLoss
    requires gradients != betaLoss
    modifies ws, losses, gradients, betaLoss
    ensures OutsideBoth(ws[..], old(ws[..]), lpOff, lpOff + (2 * labelLen + 1), alphaOff, alphaOff + span)
    ensures Kept(batch, ws[..], probs, s, blankLb, j, lpOff, alphaOff)
    ensures Delivers(batch, probs, s, g, blankLb, softmax, losses[..], betaLoss[..], gradients[..], j)
    ensures forall q :: 0 <= q < losses.Length && q != j ==> losses[q] == old(losses[q])
    ensures forall q :: 0 <= q < betaLoss.Length && q != j ==> betaLoss[q] == old(betaLoss[q])
    ensures forall q :: 0 <= q < gradients.Length && !Touches(g, inputLen, j, classes, q) ==>
              gradients[q] == old(gradients[q])
  {
    ItemReady(batch, probs, s, g, blankLb, j);
    ghost var l := ItemOf(batch, probs, s, blankLb, j);
    TableInWorkspace(ws[..], probOff, probs, s, j, l.y, classes);
    assert batch.Shaped();
    hide Ready, Suppress, LabelPrime, Offset, Repeats, ClampBlank, ItemLattice, Feasible, Delivers, Touches;
    hide AlphaTable, Kept, HoldsInts, HoldsTable;
    hide Lattice.Alpha, Lattice.Beta, Lattice.ClassMass, Lattice.Likelihood, Lattice.BetaLoss;
    CtcAlphaGpu(ws, probOff, labOff, labelLen, inputLen, classes, s, j, repeat, lpOff, alphaOff, losses, blankLb,
                batch.Lab(j), l);
    LaunchGradient(ws, probOff, labelLen, inputLen, classes, s, g, j, n, repeat, lpOff, alphaOff, losses[..], gradients,
                   betaLoss, blankLb, softmax, batch, probs, l);
  }

  /** Gradients of an item whose forward table is in the workspace. */
  method LaunchGradient(ws: array<real>, probOff: nat, labelLen: nat, inputLen: nat, classes: nat, s: Strides,
                        g: Strides, j: nat, n: nat, repeat: nat, lpOff: nat, alphaOff: nat, ghost losses: seq<real>,
                        gradients: array<real>, betaLoss: array<real>, blankLb: int, softmax: bool, ghost batch: Batch,
                        ghost probs: seq<real>, ghost l: Lattice)
    requires Ready(batch, probs, s, g, blankLb) && j < n == |batch.inputLengths| && classes == batch.classes
    requires inputLen == batch.inputLengths[j] && labelLen == batch.labelLengths[j] && repeat == batch.RepeatsOf(j)
    requires Fits(s, inputLen, j, classes, |probs|) && l == ItemOf(batch, probs, s, blankLb, j) && l.Valid()
    requires |l.y| == inputLen
    requires probOff + |probs| <= ws.Length && ws[probOff..probOff + |probs|] == probs
    requires alphaOff + inputLen * (2 * labelLen + 1) <= ws.Length
    requires HoldsInts(ws[..], lpOff, l.lp) && AlphaTable(ws[..], alphaOff, l, Suppress(batch.Lab(j), inputLen))
    requires j < |losses| && losses[j] == l.Likelihood(Suppress(batch.Lab(j), inputLen))
    requires j < betaLoss.Length && gradients.Length == |probs|
    requires ws != gradients && ws != betaLoss && gradients != betaLoss
    modifies gradients, betaLoss
    ensures Kept(batch, ws[..], probs, s, blankLb, j, lpOff, alphaOff)
    ensures Delivers(batch, probs, s, g, blankLb, softmax, losses, betaLoss[..], gradients[..], j)
    ensures forall q :: 0 <= q < betaLoss.Length && q != j ==> betaLoss[q] == old(betaLoss[q])
    ensures forall q :: 0 <= q < gradients.Length && !Touches(g, inputLen, j, classes, q) ==>
              gradients[q] == old(gradients[q])
  {
    ItemReady(batch, probs, s, g, blankLb, j);
    TableInWorkspace(ws[..], probOff, probs, s, j, l.y, classes);
    assert batch.Shaped();
    hide Ready, Suppress, LabelPrime, Offset, Repeats, ModeGradient, ClampBlank, ItemLattice, Feasible, Delivers;
    hide Touches;
    hide AlphaTable, Kept, HoldsInts, HoldsTable;
    hide Lattice.Alpha, Lattice.Beta, Lattice.ClassMass, Lattice.Likelihood, Lattice.BetaLoss;
    CtcGradientGpu(ws, probOff, lpOff, alphaOff, labelLen, inputLen, classes, s, g, j, n, repeat, gradients, betaLoss,
                   blankLb, softmax, batch.Lab(j), l);
    KeptFrom(batch, ws[..], probs, s, blankLb, j, lpOff, alphaOff, l);
    SuppressedDelivers(batch, probs, s, g, blankLb, softmax, losses, betaLoss[..], gradients[..], j);
  }

  lemma TableInWorkspace(ws: seq<real>, offset: nat, probs: seq<real>, s: Strides, b: nat, y: Table, classes: nat)
    requires IsTable(y, |y|, classes) && offset + |probs| <= |ws| && ws[offset..offset + |probs|] == probs
    requires forall t: nat, c: nat :: t < |y| && c < classes ==>
               Offset(s, t, b, c) < |probs| && y[t][c] == probs[Offset(s, t, b, c)]
    ensures HoldsTable(ws, offset, s, b, y, classes)
  {
    hide Offset;
    forall t: nat, c: nat | t < |y| && c < classes
      ensures offset + Offset(s, t, b, c) < |ws| && y[t][c] == ws[offset + Offset(s, t, b, c)]
    {
      assert ws[offset..offset + |probs|][Offset(s, t, b, c)] == ws[offset + Offset(s, t, b, c)];
    }
  }

  // ---- All items ----

  /** After an input's end its gradient cells are those of `original`. */
  ghost predicate PaddingIs(batch: Batch, g: Strides, gradients: seq<real>, original: seq<real>) {
    && |gradients| == |original|
    && forall i: nat :: i < |batch.inputLengths| ==>
         && Fits(g, batch.maxSteps, i, batch.classes, |gradients|)
         && forall t: nat, c: nat :: batch.inputLengths[i] <= t < batch.maxSteps && c < batch.classes ==>
              gradients[Offset(g, t, i, c)] == original[Offset(g, t, i, c)]
  }

  /** Item `j` may have changed its own gradient cells only, and its padding is in order. */
  ghost predicate ChangesOwn(batch: Batch, g: Strides, j: nat, before: seq<real>, after: seq<real>, original: seq<real>)
  {
    && j < |batch.inputLengths| && |after| == |before| == |original|
    && Fits(g, batch.maxSteps, j, batch.classes, |after|)
    && (forall q :: 0 <= q < |after| && !Touches(g, batch.maxSteps, j, batch.classes, q) ==> after[q] == before[q])
    && forall t: nat, c: nat :: batch.inputLengths[j] <= t < batch.maxSteps && c < batch.classes ==>
         after[Offset(g, t, j, c)] == original[Offset(g, t, j, c)]
  }

  lemma TouchesOwn(batch: Batch, g: Strides, j: nat, i: nat, t: nat, c: nat)
    requires Separate(g, batch.maxSteps, |batch.inputLengths|, batch.classes)
    requires j < |batch.inputLengths| && i < |batch.inputLengths| && t < batch.maxSteps && c < batch.classes
    ensures i != j ==> !Touches(g, batch.maxSteps, j, batch.classes, Offset(g, t, i, c))
    ensures batch.inputLengths[j] <= t && batch.inputLengths[j] <= batch.maxSteps ==>
              !Touches(g, batch.inputLengths[j], j, batch.classes, Offset(g, t, i, c))
  {
    hide Offset;
  }

  /** What an item that writes its first time steps only does to the padding. */
  lemma PrefixChangesOwn(batch: Batch, probs: seq<real>, s: Strides, g: Strides, blankLb: int, j: nat,
                         before: seq<real>, after: seq<real>, original: seq<real>)
    requires Ready(batch, probs, s, g, blankLb) && j < |batch.inputLengths|
    requires PaddingIs(batch, g, before, original) && |after| == |before|
    requires forall q :: 0 <= q < |after| && !Touches(g, batch.inputLengths[j], j, batch.classes, q) ==>
               after[q] == before[q]
    ensures ChangesOwn(batch, g, j, before, after, original)
  {
    assert batch.ItemAccepted(j);
    assert Fits(g, batch.maxSteps, j, batch.classes, |after|);
    hide Offset;
    forall q | 0 <= q < |after| && !Touches(g, batch.maxSteps, j, batch.classes, q) ensures after[q] == before[q] {
      assert !Touches(g, batch.inputLengths[j], j, batch.classes, q);
    }
    forall t: nat, c: nat | batch.inputLengths[j] <= t < batch.maxSteps && c < batch.classes
      ensures after[Offset(g, t, j, c)] == original[Offset(g, t, j, c)]
    {
      TouchesOwn(batch, g, j, j, t, c);
    }
  }

  lemma DeliversKept(batch: Batch, probs: seq<real>, s: Strides, g: Strides, blankLb: int, softmax: bool,
                     losses: seq<real>, betaLoss: seq<real>, gradients: seq<real>, newLosses: seq<real>,
                     newBetaLoss: seq<real>, newGradients: seq<real>, original: seq<real>, i: nat, j: nat)
    requires Ready(batch, probs, s, g, blankLb) && i < |batch.inputLengths| && i != j
    requires Delivers(batch, probs, s, g, blankLb, softmax, losses, betaLoss, gradients, i)
    requires |newLosses| == |losses| && newLosses[i] == losses[i]
    requires |newBetaLoss| == |betaLoss| && newBetaLoss[i] == betaLoss[i]
    requires ChangesOwn(batch, g, j, gradients, newGradients, original)
    ensures Delivers(batch, probs, s, g, blankLb, softmax, newLosses, newBetaLoss, newGradients, i)
  {
    hide Offset, ModeGradient, ItemOf, Touches;
    hide Lattice.Likelihood;
    assert batch.ItemAccepted(i);
    forall t: nat, c: nat | t < batch.inputLengths[i] && c < batch.classes
      ensures newGradients[Offset(g, t, i, c)] == gradients[Offset(g, t, i, c)]
    {
      TouchesOwn(batch, g, j, i, t, c);
    }
  }

  lemma PaddingKept(batch: Batch, g: Strides, gradients: seq<real>, newGradients: seq<real>, original: seq<real>,
                    j: nat)
    requires PaddingIs(batch, g, gradients, original) && ChangesOwn(batch, g, j, gradients, newGradients, original)
    requires Separate(g, batch.maxSteps, |batch.inputLengths|, batch.classes)
    ensures PaddingIs(batch, g, newGradients, original)
  {
    hide Offset, Touches;
    forall i: nat, t: nat, c: nat |
      i < |batch.inputLengths| && batch.inputLengths[i] <= t < batch.maxSteps && c < batch.classes
      ensures Offset(g, t, i, c) < |gradients| && newGradients[Offset(g, t, i, c)] == original[Offset(g, t, i, c)]
    {
      assert Fits(g, batch.maxSteps, i, batch.classes, |gradients|);
      TouchesOwn(batch, g, j, i, t, c);
    }
  }

  lemma NoPadding(batch: Batch, probs: seq<real>, s: Strides, g: Strides, blankLb: int, gradients: seq<real>)
    requires Ready(batch, probs, s, g, blankLb) && |gradients| == |probs|
    ensures PaddingIs(batch, g, gradients, gradients)
  {
    hide Offset;
  }

  /** One more item leaves the results of the earlier ones and the padding in place. */
  lemma ResultsKept(batch: Batch, probs: seq<real>, s: Strides, g: Strides, blankLb: int, softmax: bool,
                    losses: seq<real>, betaLoss: seq<real>, gradients: seq<real>, newLosses: seq<real>,
                    newBetaLoss: seq<real>, newGradients: seq<real>, original: seq<real>, j: nat)
    requires Ready(batch, probs, s, g, blankLb) && j < |batch.inputLengths|
    requires forall i: nat :: i < j ==> Delivers(batch, probs, s, g, blankLb, softmax, losses, betaLoss, gradients, i)
    requires PaddingIs(batch, g, gradients, original)
    requires |newLosses| == |losses| && |newBetaLoss| == |betaLoss|
    requires forall q :: 0 <= q < |losses| && q != j ==> newLosses[q] == losses[q]
    requires forall q :: 0 <= q < |betaLoss| && q != j ==> newBetaLoss[q] == betaLoss[q]
    requires ChangesOwn(batch, g, j, gradients, newGradients, original)
    ensures forall i: nat :: i < j ==>
              Delivers(batch, probs, s, g, blankLb, softmax, newLosses, newBetaLoss, newGradients, i)
    ensures PaddingIs(batch, g, newGradients, original)
  {
    PaddingKept(batch, g, gradients, newGradients, original, j);
    forall i: nat | i < j
      ensures Delivers(batch, probs, s, g, blankLb, softmax, newLosses, newBetaLoss, newGradients, i)
    {
      assert Delivers(batch, probs, s, g, blankLb, softmax, losses, betaLoss, gradients, i);
      DeliversKept(batch, probs, s, g, blankLb, softmax, losses, betaLoss, gradients, newLosses, newBetaLoss,
                   newGradients, original, i, j);
    }
  }

  lemma PrefixKept(batch: Batch, probs: seq<real>, s: Strides, g: Strides, blankLb: int, softmax: bool,
                   losses: seq<real>, betaLoss: seq<real>, gradients: seq<real>, newLosses: seq<real>,
                   newBetaLoss: seq<real>, newGradients: seq<real>, original: seq<real>, j: nat)
    requires Ready(batch, probs, s, g, blankLb) && j < |batch.inputLengths|
    requires forall i: nat :: i < j ==> Delivers(batch, probs, s, g, blankLb, softmax, losses, betaLoss, gradients, i)
    requires PaddingIs(batch, g, gradients, original)
    requires |newLosses| == |losses| && |newBetaLoss| == |betaLoss| && |newGradients| == |gradients|
    requires forall q :: 0 <= q < |losses| && q != j ==> newLosses[q] == losses[q]
    requires forall q :: 0 <= q < |betaLoss| && q != j ==> newBetaLoss[q] == betaLoss[q]
    requires forall q :: 0 <= q < |gradients| && !Touches(g, batch.inputLengths[j], j, batch.classes, q) ==>
               newGradients[q] == gradients[q]
    ensures forall i: nat :: i < j ==>
              Delivers(batch, probs, s, g, blankLb, softmax, newLosses, newBetaLoss, newGradients, i)
    ensures PaddingIs(batch, g, newGradients, original)
  {
    PrefixChangesOwn(batch, probs, s, g, blankLb, j, gradients, newGradients, original);
    ResultsKept(batch, probs, s, g, blankLb, softmax, losses, betaLoss, gradients, newLosses, newBetaLoss, newGradients,
                original, j);
  }

  /** Lengths, offsets, repeats and labels, in this order. */
  ghost predicate Header(h: seq<real>, batch: Batch)
    requires batch.Shaped()
  {
    var n, total := |batch.inputLengths|, Sum(batch.labelLengths, |batch.labelLengths|);
    && |h| == 4 * n + total
    && (forall j: nat :: j < n ==> HeaderItem(h, batch, j))
    && HoldsInts(h, 4 * n, batch.labels[..total])
  }

  ghost predicate HeaderItem(h: seq<real>, batch: Batch, j: nat)
    requires batch.Shaped() && j < |batch.inputLengths| && 4 * |batch.inputLengths| <= |h|
  {
    var n := |batch.inputLengths|;
    && h[j].Floor == batch.inputLengths[j]
    && h[n + j].Floor == batch.labelLengths[j]
    && h[2 * n + j].Floor == Sum(batch.labelLengths, j)
    && h[3 * n + j].Floor == batch.RepeatsOf(j)
  }

  lemma LabelInHeader(ws: seq<real>, batch: Batch, j: nat, size: nat)
    requires batch.Shaped() && j < |batch.inputLengths| && size <= |ws| && Header(ws[..size], batch)
    ensures HoldsInts(ws, 4 * |batch.inputLengths| + Sum(batch.labelLengths, j), batch.Lab(j))
    ensures 4 * |batch.inputLengths| + Sum(batch.labelLengths, j) + batch.labelLengths[j] <= size
  {
    hide HeaderItem, HoldsInts, Sum;
    hide Batch.Lab;
    LabIsSlice(batch, j);
    IntsWithin(ws, size, 4 * |batch.inputLengths|, batch.labels[..Sum(batch.labelLengths, |batch.labelLengths|)],
               Sum(batch.labelLengths, j), batch.labelLengths[j]);
  }

  lemma LabIsSlice(batch: Batch, j: nat)
    requires batch.Shaped() && j < |batch.inputLengths|
    ensures var total, off := Sum(batch.labelLengths, |batch.labelLengths|), Sum(batch.labelLengths, j);
            off + batch.labelLengths[j] <= total
            && batch.labels[..total][off..off + batch.labelLengths[j]] == batch.Lab(j)
  {
    SumGrows(batch.labelLengths, j + 1, |batch.labelLengths|);
  }

  lemma IntsWithin(ws: seq<real>, size: nat, offset: nat, ints: seq<int>, lo: nat, length: nat)
    requires size <= |ws| && HoldsInts(ws[..size], offset, ints) && lo + length <= |ints|
    ensures HoldsInts(ws, offset + lo, ints[lo..lo + length])
  {
    var part := ints[lo..lo + length];
    forall i | 0 <= i < length ensures ws[offset + lo + i].Floor == part[i] {
      assert ws[..size][offset + (lo + i)].Floor == ints[lo + i];
    }
  }

  /** The rows of one item take up no more than its region. */
  lemma RowsInRegion(steps: nat, length: nat, maxSteps: nat, maxLabel: nat)
    requires steps <= maxSteps && length <= maxLabel
    ensures steps * (2 * length + 1) <= Row(2 * maxLabel + 1, maxSteps, 0)
  {
    assert steps * (2 * length + 1) <= steps * (2 * maxLabel + 1);
    assert steps * (2 * maxLabel + 1) <= maxSteps * (2 * maxLabel + 1);
  }

  method ReadHeader(batch: Batch, ws: array<real>, lpOffset: nat, j: nat)
    returns (inputLen: nat, labelLen: nat, labelOffset: nat, repeat: nat)
    requires batch.Shaped() && j < |batch.inputLengths| && lpOffset <= ws.Length && Header(ws[..lpOffset], batch)
    ensures inputLen == batch.inputLengths[j] && labelLen == batch.labelLengths[j]
    ensures labelOffset == Sum(batch.labelLengths, j) && repeat == batch.RepeatsOf(j)
  {
    hide Sum;
    hide Batch.RepeatsOf;
    var n := |batch.inputLengths|;
    ghost var header := ws[..lpOffset];
    assert HeaderItem(header, batch, j);
    assert ws[j] == header[j] && ws[n + j] == header[n + j];
    assert ws[2 * n + j] == header[2 * n + j] && ws[3 * n + j] == header[3 * n + j];
    inputLen := ws[j].Floor;
    labelLen := ws[n + j].Floor;
    labelOffset := ws[2 * n + j].Floor;
    repeat := ws[3 * n + j].Floor;
  }

  /** The next item: its integers are read back from the header, its places computed from its number. */
  method LaunchNext(batch: Batch, ws: array<real>, s: Strides, g: Strides, lpOffset: nat, probOff: nat, lpOff: nat,
                    alphaOff: nat, j: nat, losses: array<real>, gradients: array<real>, betaLoss: array<real>,
                    blankLb: int, softmax: bool, ghost probs: seq<real>, ghost maxS: nat, ghost span: nat)
    requires Ready(batch, probs, s, g, blankLb) && j < |batch.inputLengths|
    requires maxS == 2 * Largest(batch.labelLengths, |batch.labelLengths|) + 1 && span == Row(maxS, batch.maxSteps, 0)
    requires lpOffset <= ws.Length && Header(ws[..lpOffset], batch)
    requires lpOffset <= lpOff && lpOff + maxS <= probOff && probOff + |probs| <= alphaOff
    requires alphaOff + span <= ws.Length
    requires ws[probOff..probOff + |probs|] == probs
    requires forall q :: alphaOff <= q < alphaOff + span ==> ws[q] == 0.0
    requires losses.Length == |batch.inputLengths| == betaLoss.Length && gradients.Length == |probs|
    requires ws != losses && ws != gradients && ws != betaLoss && losses != gradients && losses != betaLoss
    requires gradients != betaLoss
    modifies ws, losses, gradients, betaLoss
    ensures ws[..lpOffset] == old(ws[..lpOffset]) && ws[probOff..probOff + |probs|] == probs
    ensures OutsideBoth(ws[..], old(ws[..]), lpOff, lpOff + maxS, alphaOff, alphaOff + span)
    ensures Kept(batch, ws[..], probs, s, blankLb, j, lpOff, alphaOff)
    ensures Delivers(batch, probs, s, g, blankLb, softmax, losses[..], betaLoss[..], gradients[..], j)
    ensures forall q :: 0 <= q < losses.Length && q != j ==> losses[q] == old(losses[q])
    ensures forall q :: 0 <= q < betaLoss.Length && q != j ==> betaLoss[q] == old(betaLoss[q])
    ensures forall q :: 0 <= q < gradients.Length && !Touches(g, batch.inputLengths[j], j, batch.classes, q) ==>
              gradients[q] == old(gradients[q])
  {
    hide Offset, Touches, Delivers, Largest, Sum, Kept;
    hide Batch.Lab, Batch.RepeatsOf;
    var inputLen, labelLen, labelOffset, repeat := ReadHeader(batch, ws, lpOffset, j);
    assert batch.ItemAccepted(j);
    LabelInHeader(ws[..], batch, j, lpOffset);
    RowsInRegion(inputLen, labelLen, batch.maxSteps, Largest(batch.labelLengths, |batch.labelLengths|));
    hide Header, Ready;
    hide Batch.ItemAccepted, Batch.Shaped;
    LaunchItem(ws, probOff, 4 * |batch.inputLengths| + labelOffset, labelLen, inputLen, batch.classes, s, g, j,
               |batch.inputLengths|, repeat, lpOff, alphaOff, losses, gradients, betaLoss, blankLb, softmax, batch,
               probs, inputLen * (2 * labelLen + 1));
  }

  /** What one item's run reads and writes, in the cells the workspace layout gives it. */
  ghost predicate Laid(batch: Batch, r: Regions, maxS: nat, span: nat, lpOffset: nat, probOff: nat, alphaOff: nat,
                       size: nat) {
    && batch.Shaped() && r == RegionsOf(batch) && maxS == r.Width() && span == r.Span()
    && lpOffset == r.LabelPrimes(0) && probOff == r.Probs() && alphaOff == r.Alphas(0)
    && lpOffset <= probOff <= alphaOff <= r.Size() <= size
  }

  /**
   What holds between items: shared regions and everything past the workspace intact, later alphas clear,
   earlier items delivered and their own regions kept.
   */
  ghost predicate Launched(batch: Batch, ws: seq<real>, ws0: seq<real>, s: Strides, g: Strides, r: Regions,
                           losses: seq<real>, betaLoss: seq<real>, gradients: seq<real>, original: seq<real>,
                           blankLb: int, softmax: bool, probs: seq<real>, j: nat)
  {
    && |ws| == |ws0| && r.Size() <= |ws| && r.LabelPrimes(0) <= |ws| && r.Probs() + |probs| <= |ws|
    && ws[..r.LabelPrimes(0)] == ws0[..r.LabelPrimes(0)] && ws[r.Probs()..r.Probs() + |probs|] == probs
    && (forall q :: r.Size() <= q < |ws| ==> ws[q] == ws0[q])
    && (forall q :: r.Alphas(j) <= q < r.Size() ==> ws[q] == 0.0)
    && (forall i: nat :: i < j ==> Kept(batch, ws, probs, s, blankLb, i, r.LabelPrimes(i), r.Alphas(i)))
    && (forall i: nat :: i < j ==> Delivers(batch, probs, s, g, blankLb, softmax, losses, betaLoss, gradients, i))
    && PaddingIs(batch, g, gradients, original)
  }

  lemma RegionsOrdered(r: Regions)
    ensures r.LabelPrimes(0) <= r.Probs() <= r.Alphas(0) <= r.Size()
  {
    RegionsStart(r);
    NotNegative(r.classes, r.batches, r.maxSteps);
  }

  lemma NotNegative(a: nat, b: nat, c: nat)
    ensures a * b * c >= 0
  {
  }

  /** Earlier items keep their regions while item `j` works in its own. */
  lemma EarlierKept(batch: Batch, before: seq<real>, after: seq<real>, probs: seq<real>, s: Strides, blankLb: int,
                    r: Regions, i: nat, j: nat)
    requires batch.Shaped() && r == RegionsOf(batch) && i < j < |batch.inputLengths|
    requires batch.inputLengths[i] <= batch.maxSteps
    requires Kept(batch, before, probs, s, blankLb, i, r.LabelPrimes(i), r.Alphas(i))
    requires OutsideBoth(after, before, r.LabelPrimes(j), r.LabelPrimes(j) + r.Width(), r.Alphas(j),
                         r.Alphas(j) + r.Span())
    ensures Kept(batch, after, probs, s, blankLb, i, r.LabelPrimes(i), r.Alphas(i))
  {
    hide Kept, Sum;
    hide Regions.LabelPrimes, Regions.Alphas, Regions.Probs, Regions.Size;
    RegionsInside(r, i);
    RegionsInside(r, j);
    RegionsApart(r, i, j);
    RegionsOrdered(r);
    AlphasRise(r, i);
    AlphasRise(r, j);
    RowsInRegion(batch.inputLengths[i], batch.labelLengths[i], batch.maxSteps, r.maxLabel);
    KeptStays(batch, before, after, probs, s, blankLb, i, r.LabelPrimes(i), r.Alphas(i), r.Width(), r.Span());
  }

  lemma AlphasRise(r: Regions, j: nat)
    ensures r.Probs() <= r.Alphas(j) && r.LabelPrimes(0) <= r.LabelPrimes(j) && r.Alphas(0) <= r.Alphas(j)
    ensures r.Probs() + r.classes * r.batches * r.maxSteps <= r.Alphas(j)
  {
    NotNegative(r.classes, r.batches, r.maxSteps);
    RowZero(r.Width());
    RowZero(r.Span());
  }

  /** One more item, in its own regions. */
  method LaunchAfter(batch: Batch, ws: array<real>, s: Strides, g: Strides, maxS: nat, span: nat, lpOffset: nat,
                     probOff: nat, alphaOff: nat, losses: array<real>, gradients: array<real>, betaLoss: array<real>,
                     blankLb: int, softmax: bool, j: nat, ghost probs: seq<real>, ghost ws0: seq<real>,
                     ghost original: seq<real>, ghost r: Regions)
    requires Ready(batch, probs, s, g, blankLb) && j < |batch.inputLengths|
    requires Laid(batch, r, maxS, span, lpOffset, probOff, alphaOff, ws.Length)
    requires |ws0| == ws.Length && Header(ws0[..lpOffset], batch)
    requires losses.Length == |batch.inputLengths| == betaLoss.Length && gradients.Length == |probs|
    requires ws != losses && ws != gradients && ws != betaLoss && losses != gradients && losses != betaLoss
    requires gradients != betaLoss
    requires Launched(batch, ws[..], ws0, s, g, r, losses[..], betaLoss[..], gradients[..], original, blankLb, softmax,
                      probs, j)
    modifies ws, losses, gradients, betaLoss
    ensures Launched(batch, ws[..], ws0, s, g, r, losses[..], betaLoss[..], gradients[..], original, blankLb, softmax,
                     probs, j + 1)
  {
    hide Offset, Row, Touches, Delivers, Header, Largest, Ready, PaddingIs, ChangesOwn, Kept, RegionsOf, Launched;
    hide Laid, Sum;
    hide Regions.LabelPrimes, Regions.Alphas, Regions.Probs, Regions.Size, Regions.Width, Regions.Span;
    hide Batch.Lab, Batch.RepeatsOf, Batch.Accepted;
    ghost var before, lossesBefore, betaBefore, wsBefore := gradients[..], losses[..], betaLoss[..], ws[..];
    LaunchReady(batch, wsBefore, ws0, s, g, maxS, span, lpOffset, probOff, alphaOff, lossesBefore, betaBefore, before,
                original, blankLb, softmax, probs, r, j);
    LaunchNext(batch, ws, s, g, lpOffset, probOff, lpOffset + Row(maxS, j, 0), alphaOff + Row(span, j, 0), j, losses,
               gradients, betaLoss, blankLb, softmax, probs, maxS, span);
    LaunchDone(batch, wsBefore, ws[..], ws0, s, g, lossesBefore, betaBefore, before, losses[..], betaLoss[..],
               gradients[..], original, blankLb, softmax, probs, r, j);
  }

  /** What one more item needs holds between items. */
  lemma LaunchReady(batch: Batch, ws: seq<real>, ws0: seq<real>, s: Strides, g: Strides, maxS: nat, span: nat,
                    lpOffset: nat, probOff: nat, alphaOff: nat, losses: seq<real>, betaLoss: seq<real>,
                    gradients: seq<real>, original: seq<real>, blankLb: int, softmax: bool, probs: seq<real>,
                    r: Regions, j: nat)
    requires Ready(batch, probs, s, g, blankLb) && j < |batch.inputLengths|
    requires Laid(batch, r, maxS, span, lpOffset, probOff, alphaOff, |ws|)
    requires |ws0| == |ws| && Header(ws0[..lpOffset], batch)
    requires Launched(batch, ws, ws0, s, g, r, losses, betaLoss, gradients, original, blankLb, softmax, probs, j)
    ensures maxS == 2 * Largest(batch.labelLengths, |batch.labelLengths|) + 1 && span == Row(maxS, batch.maxSteps, 0)
    ensures lpOffset <= |ws| && Header(ws[..lpOffset], batch)
    ensures lpOffset + Row(maxS, j, 0) == r.LabelPrimes(j) && alphaOff + Row(span, j, 0) == r.Alphas(j)
    ensures r == RegionsOf(batch) && maxS == r.Width() && span == r.Span()
    ensures lpOffset <= r.LabelPrimes(j) && r.LabelPrimes(j) + maxS <= probOff && probOff + |probs| <= r.Alphas(j)
    ensures r.Alphas(j) + span <= |ws| && ws[probOff..probOff + |probs|] == probs
    ensures forall q :: r.Alphas(j) <= q < r.Alphas(j) + span ==> ws[q] == 0.0
  {
    PlacesOfItem(batch, r, probs, s, g, blankLb, j);
    hide Offset, Row, Delivers, Header, Largest, Ready, PaddingIs, Kept, RegionsOf, Sum;
    hide Regions.LabelPrimes, Regions.Alphas, Regions.Probs, Regions.Size, Regions.Width, Regions.Span;
  }

  /** And it holds again after the item. */
  lemma LaunchDone(batch: Batch, wsBefore: seq<real>, ws: seq<real>, ws0: seq<real>, s: Strides, g: Strides,
                   losses: seq<real>, betaLoss: seq<real>, gradients: seq<real>, newLosses: seq<real>,
                   newBetaLoss: seq<real>, newGradients: seq<real>, original: seq<real>, blankLb: int, softmax: bool,
                   probs: seq<real>, r: Regions, j: nat)
    requires Ready(batch, probs, s, g, blankLb) && j < |batch.inputLengths| && r == RegionsOf(batch)
    requires Launched(batch, wsBefore, ws0, s, g, r, losses, betaLoss, gradients, original, blankLb, softmax, probs, j)
    requires OutsideBoth(ws, wsBefore, r.LabelPrimes(j), r.LabelPrimes(j) + r.Width(), r.Alphas(j),
                         r.Alphas(j) + r.Span())
    requires Kept(batch, ws, probs, s, blankLb, j, r.LabelPrimes(j), r.Alphas(j))
    requires |losses| == |newLosses| == |betaLoss| == |newBetaLoss| == |batch.inputLengths|
    requires |gradients| == |newGradients| == |probs|
    requires Delivers(batch, probs, s, g, blankLb, softmax, newLosses, newBetaLoss, newGradients, j)
    requires forall q :: 0 <= q < |losses| && q != j ==> newLosses[q] == losses[q]
    requires forall q :: 0 <= q < |betaLoss| && q != j ==> newBetaLoss[q] == betaLoss[q]
    requires forall q :: 0 <= q < |gradients| && !Touches(g, batch.inputLengths[j], j, batch.classes, q) ==>
               newGradients[q] == gradients[q]
    ensures Launched(batch, ws, ws0, s, g, r, newLosses, newBetaLoss, newGradients, original, blankLb, softmax, probs,
                     j + 1)
  {
    hide Offset, Row, Touches, Delivers, Header, Largest, Ready, PaddingIs, ChangesOwn, Kept, RegionsOf, Sum;
    hide Regions.LabelPrimes, Regions.Alphas, Regions.Probs, Regions.Size, Regions.Width, Regions.Span;
    hide Batch.Lab, Batch.RepeatsOf, Batch.Accepted;
    PlacesOfItem(batch, r, probs, s, g, blankLb, j);
    PrefixKept(batch, probs, s, g, blankLb, softmax, losses, betaLoss, gradients, newLosses, newBetaLoss, newGradients,
               original, j);
    AllKept(batch, wsBefore, ws, probs, s, g, blankLb, r, j);
    SharedKept(batch, wsBefore, ws, ws0, probs, r, j);
  }

  /** What item `j` leaves of the shared regions, of the later alphas, and past the workspace. */
  lemma SharedKept(batch: Batch, before: seq<real>, after: seq<real>, ws0: seq<real>, probs: seq<real>, r: Regions,
                   j: nat)
    requires r.LabelPrimes(0) <= r.LabelPrimes(j) && r.LabelPrimes(j) + r.Width() <= r.Probs()
    requires r.Probs() + |probs| <= r.Alphas(j) && r.Alphas(j + 1) == r.Alphas(j) + r.Span() <= r.Size() <= |before|
    requires OutsideBoth(after, before, r.LabelPrimes(j), r.LabelPrimes(j) + r.Width(), r.Alphas(j),
                         r.Alphas(j) + r.Span())
    requires |ws0| == |before| && before[..r.LabelPrimes(0)] == ws0[..r.LabelPrimes(0)]
    requires forall q :: r.Size() <= q < |before| ==> before[q] == ws0[q]
    requires forall q :: r.Alphas(j) <= q < r.Size() ==> before[q] == 0.0
    ensures after[..r.LabelPrimes(0)] == ws0[..r.LabelPrimes(0)]
    ensures after[r.Probs()..r.Probs() + |probs|] == before[r.Probs()..r.Probs() + |probs|]
    ensures forall q :: r.Size() <= q < |after| ==> after[q] == ws0[q]
    ensures forall q :: r.Alphas(j + 1) <= q < r.Size() ==> after[q] == 0.0
  {
    hide Regions.LabelPrimes, Regions.Alphas, Regions.Probs, Regions.Size, Regions.Width, Regions.Span;
    assert forall q :: 0 <= q < r.LabelPrimes(0) ==> after[q] == before[..r.LabelPrimes(0)][q];
  }

  /** Where the layout puts item `j`, as it is computed from the item's number. */
  lemma PlacesOfItem(batch: Batch, r: Regions, probs: seq<real>, s: Strides, g: Strides, blankLb: int, j: nat)
    requires Ready(batch, probs, s, g, blankLb) && j < |batch.inputLengths| && r == RegionsOf(batch)
    ensures r.LabelPrimes(j) == r.LabelPrimes(0) + Row(r.Width(), j, 0)
    ensures r.Alphas(j) == r.Alphas(0) + Row(r.Span(), j, 0)
    ensures r.LabelPrimes(0) <= r.LabelPrimes(j) && r.LabelPrimes(j) + r.Width() <= r.Probs()
    ensures r.Probs() + |probs| == r.Alphas(0) <= r.Alphas(j)
    ensures r.Alphas(j + 1) == r.Alphas(j) + r.Span() <= r.Size()
    ensures r.Width() == 2 * Largest(batch.labelLengths, |batch.labelLengths|) + 1
    ensures r.Span() == Row(r.Width(), batch.maxSteps, 0)
  {
    hide Largest, Sum, Offset;
    RegionsStart(r);
    RegionsInside(r, j);
    Commute(batch.maxSteps, r.batches, batch.classes, 0);
    AlphasRise(r, j);
    RowZero(r.Width());
    RowZero(r.Span());
  }

  lemma AllKept(batch: Batch, before: seq<real>, after: seq<real>, probs: seq<real>, s: Strides, g: Strides,
                blankLb: int, r: Regions, j: nat)
    requires Ready(batch, probs, s, g, blankLb) && r == RegionsOf(batch) && j < |batch.inputLengths|
    requires forall i: nat :: i < j ==> Kept(batch, before, probs, s, blankLb, i, r.LabelPrimes(i), r.Alphas(i))
    requires Kept(batch, after, probs, s, blankLb, j, r.LabelPrimes(j), r.Alphas(j))
    requires OutsideBoth(after, before, r.LabelPrimes(j), r.LabelPrimes(j) + r.Width(), r.Alphas(j),
                         r.Alphas(j) + r.Span())
    ensures forall i: nat :: i < j + 1 ==> Kept(batch, after, probs, s, blankLb, i, r.LabelPrimes(i), r.Alphas(i))
  {
    hide Kept, RegionsOf;
    hide Regions.LabelPrimes, Regions.Alphas, Regions.Width, Regions.Span;
    forall i: nat | i < j ensures Kept(batch, after, probs, s, blankLb, i, r.LabelPrimes(i), r.Alphas(i)) {
      assert batch.ItemAccepted(i);
      EarlierKept(batch, before, after, probs, s, blankLb, r, i, j);
    }
  }

  /** Item after item, each in its own regions. */
  method LaunchItems(batch: Batch, ws: array<real>, s: Strides, g: Strides, maxS: nat, span: nat, lpOffset: nat,
                     probOff: nat, alphaOff: nat, losses: array<real>, gradients: array<real>, betaLoss: array<real>,
                     blankLb: int, softmax: bool, ghost probs: seq<real>, ghost r: Regions)
    requires Ready(batch, probs, s, g, blankLb) && Laid(batch, r, maxS, span, lpOffset, probOff, alphaOff, ws.Length)
    requires lpOffset <= ws.Length && Header(ws[..lpOffset], batch)
    requires probOff + |probs| <= ws.Length && ws[probOff..probOff + |probs|] == probs
    requires forall q :: alphaOff <= q < r.Size() ==> ws[q] == 0.0
    requires losses.Length == |batch.inputLengths| == betaLoss.Length && gradients.Length == |probs|
    requires ws != losses && ws != gradients && ws != betaLoss && losses != gradients && losses != betaLoss
    requires gradients != betaLoss
    modifies ws, losses, gradients, betaLoss
    ensures Launched(batch, ws[..], old(ws[..]), s, g, r, losses[..], betaLoss[..], gradients[..], old(gradients[..]),
                     blankLb, softmax, probs, |batch.inputLengths|)
  {
    NoPadding(batch, probs, s, g, blankLb, gradients[..]);
    RegionsOrdered(r);
    hide Offset, Row, Touches, Delivers, Header, Largest, Ready, PaddingIs, Kept, RegionsOf;
    hide Regions.LabelPrimes, Regions.Alphas, Regions.Probs, Regions.Size, Regions.Width, Regions.Span;
    for j := 0 to |batch.inputLengths|
      invariant Launched(batch, ws[..], old(ws[..]), s, g, r, losses[..], betaLoss[..], gradients[..],
                         old(gradients[..]), blankLb, softmax, probs, j)
    {
      LaunchAfter(batch, ws, s, g, maxS, span, lpOffset, probOff, alphaOff, losses, gradients, betaLoss, blankLb,
                  softmax, j, probs, old(ws[..]), old(gradients[..]), r);
    }
  }

  // ---- The fast path ----

  function Used(batch: Batch, raw: seq<real>, softmax: bool): (probs: seq<real>)
    requires batch.Shaped() && AllPositive(raw) && |raw| == batch.maxSteps * |batch.inputLengths| * batch.classes
    ensures |probs| == |raw|
  {
    RowValue(batch.classes, batch.maxSteps * |batch.inputLengths|);
    if softmax then SoftmaxRows(raw, batch.classes, batch.maxSteps * |batch.inputLengths|) else raw
  }

  /** What both paths ask of their caller; the checks of the batch itself are theirs to make. */
  ghost predicate Callable(batch: Batch, raw: seq<real>, s: Strides, g: Strides, blankLb: int) {
    && batch.Shaped() && batch.GoodLabels(blankLb)
    && |raw| == batch.maxSteps * |batch.inputLengths| * batch.classes && AllPositive(raw)
    && StridesFit(batch, s, |raw|) && StridesFit(batch, g, |raw|)
    && Separate(g, batch.maxSteps, |batch.inputLengths|, batch.classes)
  }

  lemma CallableIsReady(batch: Batch, raw: seq<real>, s: Strides, g: Strides, blankLb: int, softmax: bool)
    requires Callable(batch, raw, s, g, blankLb) && batch.Accepted()
    ensures Ready(batch, Used(batch, raw, softmax), s, g, blankLb)
  {
    RowValue(batch.classes, batch.maxSteps * |batch.inputLengths|);
    if softmax { SoftmaxRowsPositive(raw, batch.classes, batch.maxSteps * |batch.inputLengths|); }
  }

  method CopyInts(ws: array<real>, offset: nat, ints: seq<int>)
    requires offset + |ints| <= ws.Length
    modifies ws
    ensures HoldsInts(ws[..], offset, ints) && Outside(ws[..], old(ws[..]), offset, offset + |ints|)
  {
    for i := 0 to |ints|
      invariant forall k :: 0 <= k < i ==> ws[offset + k].Floor == ints[k]
      invariant Outside(ws[..], old(ws[..]), offset, offset + i)
    {
      ws[offset + i] := ints[i] as real;
    }
  }

  method WriteHeader(batch: Batch, ws: array<real>, repeat: seq<nat>, offsets: seq<nat>, total: nat, size: nat)
    requires batch.Shaped() && total == Sum(batch.labelLengths, |batch.labelLengths|)
    requires size == 4 * |batch.inputLengths| + total <= ws.Length
    requires |repeat| == |offsets| == |batch.inputLengths|
    requires forall i: nat :: i < |batch.inputLengths| ==>
               repeat[i] == batch.RepeatsOf(i) && offsets[i] == Sum(batch.labelLengths, i)
    modifies ws
    ensures Header(ws[..size], batch)
    ensures forall q :: size <= q < ws.Length ==> ws[q] == old(ws[q])
  {
    hide Sum;
    hide Batch.RepeatsOf;
    var n := |batch.inputLengths|;
    CopyInts(ws, 0, batch.inputLengths);
    CopyInts(ws, n, batch.labelLengths);
    CopyInts(ws, 2 * n, offsets);
    CopyInts(ws, 3 * n, repeat);
    ghost var ints := ws[..];
    CopyInts(ws, 4 * n, batch.labels[..total]);
    forall j: nat | j < n ensures HeaderItem(ws[..size], batch, j) {
      HeaderItemWritten(ints, batch, repeat, offsets, j);
      ItemKept(ints, ws[..size], batch, j);
    }
  }

  lemma HeaderItemWritten(ints: seq<real>, batch: Batch, repeat: seq<nat>, offsets: seq<nat>, j: nat)
    requires batch.Shaped() && |repeat| == |offsets| == |batch.inputLengths| && j < |batch.inputLengths|
    requires 4 * |repeat| <= |ints|
    requires repeat[j] == batch.RepeatsOf(j) && offsets[j] == Sum(batch.labelLengths, j)
    requires HoldsInts(ints, 0, batch.inputLengths) && HoldsInts(ints, |repeat|, batch.labelLengths)
    requires HoldsInts(ints, 2 * |repeat|, offsets) && HoldsInts(ints, 3 * |repeat|, repeat)
    ensures HeaderItem(ints, batch, j)
  {
    hide Sum;
    hide Batch.RepeatsOf;
    assert ints[0 + j].Floor == batch.inputLengths[j];
  }

  lemma ItemKept(ints: seq<real>, h: seq<real>, batch: Batch, j: nat)
    requires batch.Shaped() && j < |batch.inputLengths| && 4 * |batch.inputLengths| <= |h| <= |ints|
    requires forall q :: 0 <= q < 4 * |batch.inputLengths| ==> h[q] == ints[q]
    requires HeaderItem(ints, batch, j)
    ensures HeaderItem(h, batch, j)
  {
    hide Sum;
    hide Batch.RepeatsOf;
  }

  method LoadSoftmax(ws: array<real>, probOff: nat, raw: seq<real>, classes: nat, rows: nat)
    requires classes >= 1 && AllPositive(raw) && |raw| == Row(classes, rows, 0) && probOff + |raw| <= ws.Length
    modifies ws
    ensures ws[probOff..probOff + |raw|] == SoftmaxRows(raw, classes, rows)
    ensures Outside(ws[..], old(ws[..]), probOff, probOff + |raw|)
  {
    hide Row, SoftmaxRow, AllPositive;
    RowZero(classes);
    for j := 0 to rows
      invariant Row(classes, j, 0) <= |raw|
      invariant ws[probOff..probOff + Row(classes, j, 0)] == SoftmaxRows(raw, classes, j)
      invariant Outside(ws[..], old(ws[..]), probOff, probOff + Row(classes, j, 0))
    {
      RowNext(classes, j);
      RowBefore(classes, j, rows);
      ghost var before, base := ws[..], probOff + Row(classes, j, 0);
      SubvecSoftmaxGpu(raw, ws, Row(classes, j, 0), probOff + Row(classes, j, 0), classes);
      SliceGrows(before, ws[..], probOff, base, base + classes);
    }
  }

  lemma SliceGrows(before: seq<real>, after: seq<real>, a: nat, b: nat, c: nat)
    requires a <= b <= c <= |before| == |after| && forall q :: a <= q < b ==> after[q] == before[q]
    ensures after[a..c] == before[a..b] + after[b..c]
  {
  }

  method CopyReals(ws: array<real>, offset: nat, raw: seq<real>)
    requires offset + |raw| <= ws.Length
    modifies ws
    ensures ws[offset..offset + |raw|] == raw
    ensures Outside(ws[..], old(ws[..]), offset, offset + |raw|)
  {
    for q := 0 to |raw|
      invariant forall k :: 0 <= k < q ==> ws[offset + k] == raw[k]
      invariant Outside(ws[..], old(ws[..]), offset, offset + q)
    {
      ws[offset + q] := raw[q];
    }
  }

  method ClearRegion(ws: array<real>, lo: nat, hi: nat)
    requires lo <= hi <= ws.Length
    modifies ws
    ensures forall q :: lo <= q < hi ==> ws[q] == 0.0
    ensures Outside(ws[..], old(ws[..]), lo, hi)
  {
    for q := lo to hi
      invariant forall k :: lo <= k < q ==> ws[k] == 0.0
      invariant Outside(ws[..], old(ws[..]), lo, q)
    {
      ws[q] := 0.0;
    }
  }

  /** Both tensors have the batch's dimensions and the size these ask for. */
  predicate Matches(batch: Batch, raw: seq<real>, gradientDims: Dims, gradientSize: nat) {
    && gradientDims == DimsOf(batch)
    && |raw| == batch.maxSteps * |batch.inputLengths| * batch.classes && |raw| == gradientSize
  }

  /** The checked batch through the flat workspace. */
  method RunEmulator(batch: Batch, raw: seq<real>, s: Strides, gradientDims: Dims, g: Strides, ws: array<real>,
                     losses: array<real>, gradients: array<real>, betaLoss: array<real>, blankLb: int, softmax: bool)
    returns (ran: bool)
    requires batch.Shaped()
    requires Matches(batch, raw, gradientDims, gradients.Length) ==>
               && Callable(batch, raw, s, g, blankLb) && losses.Length == |batch.inputLengths| == betaLoss.Length
               && (batch.Accepted() ==> RegionsOf(batch).Size() <= ws.Length)
    requires ws != losses && ws != gradients && ws != betaLoss && losses != gradients && losses != betaLoss
    requires gradients != betaLoss
    modifies ws, losses, gradients, betaLoss
    ensures ran <==> Matches(batch, raw, gradientDims, gradients.Length) && batch.Accepted()
    ensures ran ==> forall i: nat :: i < |batch.inputLengths| ==>
              Delivers(batch, Used(batch, raw, softmax), s, g, blankLb, softmax, losses[..], betaLoss[..],
                       gradients[..], i)
    ensures ran ==> PaddingIs(batch, g, gradients[..], old(gradients[..]))
    ensures ran ==> forall i: nat :: i < |batch.inputLengths| ==>
              Kept(batch, ws[..], Used(batch, raw, softmax), s, blankLb, i, RegionsOf(batch).LabelPrimes(i),
                   RegionsOf(batch).Alphas(i))
    ensures ran ==> forall q :: RegionsOf(batch).Size() <= q < ws.Length ==> ws[q] == old(ws[q])
    ensures !ran ==> ws[..] == old(ws[..]) && losses[..] == old(losses[..])
                     && gradients[..] == old(gradients[..]) && betaLoss[..] == old(betaLoss[..])
  {
    if gradientDims != DimsOf(batch) { return false; }
    var checked := CheckBatch(batch);
    if checked.Rejected? { return false; }
    if |raw| != batch.maxSteps * |batch.inputLengths| * batch.classes { return false; }
    if |raw| != gradients.Length { return false; }
    hide Callable, Delivers, Kept, PaddingIs, RegionsOf, Used;
    hide Batch.Accepted, Regions.Size, Batch.RepeatsOf, Regions.LabelPrimes, Regions.Alphas, Regions.Probs;
    CallableIsReady(batch, raw, s, g, blankLb, softmax);
    ghost var probs := Used(batch, raw, softmax);
    Launch(batch, raw, s, g, ws, checked.repeat, checked.offsets, checked.maxLabel, checked.total, losses, gradients,
           betaLoss, blankLb, softmax, probs);
    return true;
  }

  /** Fills the shared regions and clears the alphas. */
  method Prepare(batch: Batch, ws: array<real>, repeat: seq<nat>, offsets: seq<nat>, total: nat, lpOffset: nat,
                 probOff: nat, alphaOff: nat, end: nat, raw: seq<real>, softmax: bool)
    requires batch.Shaped() && AllPositive(raw) && |raw| == batch.maxSteps * |batch.inputLengths| * batch.classes
    requires total == Sum(batch.labelLengths, |batch.labelLengths|)
    requires |repeat| == |offsets| == |batch.inputLengths|
    requires forall i: nat :: i < |batch.inputLengths| ==>
               repeat[i] == batch.RepeatsOf(i) && offsets[i] == Sum(batch.labelLengths, i)
    requires lpOffset == 4 * |batch.inputLengths| + total
    requires lpOffset <= probOff && probOff + |raw| <= alphaOff <= end <= ws.Length
    modifies ws
    ensures Header(ws[..lpOffset], batch)
    ensures ws[probOff..probOff + |raw|] == Used(batch, raw, softmax)
    ensures forall q :: alphaOff <= q < end ==> ws[q] == 0.0
    ensures forall q :: end <= q < ws.Length ==> ws[q] == old(ws[q])
  {
    RowValue(batch.classes, batch.maxSteps * |batch.inputLengths|);
    WriteHeader(batch, ws, repeat, offsets, total, lpOffset);
    hide Row, Header, Sum;
    hide Batch.RepeatsOf;
    ghost var header := ws[..lpOffset];
    ClearRegion(ws, alphaOff, end);
    if softmax {
      LoadSoftmax(ws, probOff, raw, batch.classes, batch.maxSteps * |batch.inputLengths|);
    } else {
      CopyReals(ws, probOff, raw);
    }
    assert ws[..lpOffset] == header;
  }

  method Launch(batch: Batch, raw: seq<real>, s: Strides, g: Strides, ws: array<real>, repeat: seq<nat>,
                offsets: seq<nat>, maxLabel: nat, total: nat, losses: array<real>, gradients: array<real>,
                betaLoss: array<real>, blankLb: int, softmax: bool, ghost probs: seq<real>)
    requires Callable(batch, raw, s, g, blankLb) && probs == Used(batch, raw, softmax)
    requires Ready(batch, probs, s, g, blankLb)
    requires total == Sum(batch.labelLengths, |batch.labelLengths|)
    requires maxLabel == Largest(batch.labelLengths, |batch.labelLengths|)
    requires |repeat| == |offsets| == |batch.inputLengths|
    requires forall i: nat :: i < |batch.inputLengths| ==>
               repeat[i] == batch.RepeatsOf(i) && offsets[i] == Sum(batch.labelLengths, i)
    requires RegionsOf(batch).Size() <= ws.Length
    requires losses.Length == |batch.inputLengths| == betaLoss.Length && gradients.Length == |raw|
    requires ws != losses && ws != gradients && ws != betaLoss && losses != gradients && losses != betaLoss
    requires gradients != betaLoss
    modifies ws, losses, gradients, betaLoss
    ensures Launched(batch, ws[..], ws[..], s, g, RegionsOf(batch), losses[..], betaLoss[..], gradients[..],
                     old(gradients[..]), blankLb, softmax, probs, |batch.inputLengths|)
    ensures forall q :: RegionsOf(batch).Size() <= q < ws.Length ==> ws[q] == old(ws[q])
  {
    var n := |batch.inputLengths|;
    var maxS := 2 * maxLabel + 1;
    var lpOffset := 4 * n + total;
    var probOff := lpOffset + Row(maxS, n, 0);
    var alphaOff := probOff + batch.classes * n * batch.maxSteps;
    var span := Row(maxS, batch.maxSteps, 0);
    var end := alphaOff + Row(span, n, 0);
    ghost var r := RegionsOf(batch);
    Commute(batch.maxSteps, n, batch.classes, 0);
    RegionsStart(r);
    RegionsOrdered(r);
    assert Laid(batch, r, maxS, span, lpOffset, probOff, alphaOff, ws.Length) && probOff + |raw| == alphaOff
           && end == r.Size();
    assert batch.Shaped() && AllPositive(raw) && |raw| == batch.maxSteps * n * batch.classes;
    hide Delivers, PaddingIs, Sum, Largest, Header, Ready, Used, Callable, RegionsOf, AllPositive, Row, Kept;
    hide Regions.Size, Batch.RepeatsOf, Regions.LabelPrimes, Regions.Probs, Regions.Alphas;
    Prepare(batch, ws, repeat, offsets, total, lpOffset, probOff, alphaOff, end, raw, softmax);
    LaunchItems(batch, ws, s, g, maxS, span, lpOffset, probOff, alphaOff, losses, gradients, betaLoss, blankLb, softmax,
                probs, r);
  }
}
