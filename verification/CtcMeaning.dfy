/** What a run delivers, said from outside: sums over class sequences of the caller's own rows, label and blank. */
module CtcMeaning {
  import opened CtcSpec
  import opened CtcPaths
  import opened CtcFeasible
  import opened CtcLayout
  import opened CtcGradient
  import opened CtcReference
  import opened CtcEmulator
  import opened CtcSoftmax
  import opened CtcRun

  // ---- Rows, label and blank as the caller gives them ----

  /** The blank itself if it is a class, otherwise the class nearest to it. */
  predicate BlankIs(blankLb: int, classes: nat, b: int) {
    && (0 <= blankLb < classes ==> b == blankLb)
    && (blankLb < 0 ==> b == 0)
    && (blankLb >= classes ==> b == classes - 1)
  }

  /** Where the packed row of a place begins. */
  function RowStart(classes: nat, q: nat): nat
    requires classes >= 1
  {
    q / classes * classes
  }

  /** Place `q` of the input, or of the softmax of its packed row. */
  ghost predicate ValueIs(raw: seq<real>, classes: nat, softmax: bool, q: nat, value: real)
    requires classes >= 1
  {
    var base := RowStart(classes, q);
    && q < |raw| && base + classes <= |raw|
    && if softmax then value * RowTotal(raw[base..base + classes], classes) == raw[q] else value == raw[q]
  }

  /** `y` is what the caller gives for item `i`: one row per step of its own length. */
  ghost predicate RowsAre(batch: Batch, raw: seq<real>, s: Strides, softmax: bool, i: nat, y: Table)
    requires batch.Shaped() && i < |batch.inputLengths|
  {
    && IsTable(y, batch.inputLengths[i], batch.classes)
    && forall t: nat, c: nat :: t < |y| && c < batch.classes ==>
         ValueIs(raw, batch.classes, softmax, t * s.time + i * s.batch + c, y[t][c])
  }

  /** Probability of a label: the weight of all sequences of classes, as long as the input, that collapse to it. */
  function Probability(y: Table, classes: nat, lab: seq<int>, b: int): real {
    CollapseSum(y, AllPaths(classes, |y|), lab, b)
  }

  function Dot(z: seq<real>, y: seq<real>, slopes: seq<real>, n: nat): real
    requires n <= |z| && n <= |y| && n <= |slopes|
  {
    if n == 0 then 0.0 else Dot(z, y, slopes, n - 1) + (z[n - 1] - y[n - 1]) * slopes[n - 1]
  }

  /** The slopes of minus the logarithm of the probability: it is linear in each row of the table. */
  ghost predicate SlopesAre(y: Table, classes: nat, lab: seq<int>, b: int, t: nat, slopes: seq<real>)
    requires t < |y| && |y[t]| == classes
  {
    && |slopes| == classes
    && forall z: seq<real> :: |z| == classes ==>
         Probability(y[t := z], classes, lab, b) - Probability(y, classes, lab, b)
         == -Probability(y, classes, lab, b) * Dot(z, y[t], slopes, classes)
  }

  function Mean(y: seq<real>, slopes: seq<real>, n: nat): real
    requires n <= |y| && n <= |slopes|
  {
    if n == 0 then 0.0 else Mean(y, slopes, n - 1) + y[n - 1] * slopes[n - 1]
  }

  /** A gradient row: the slopes, or the slopes taken back through the softmax of the row. */
  ghost predicate GradientIs(y: seq<real>, slopes: seq<real>, softmax: bool, gradient: seq<real>)
    requires |y| == |slopes|
  {
    && |gradient| == |y|
    && forall c :: 0 <= c < |y| ==>
         gradient[c] == if softmax then y[c] * (slopes[c] - Mean(y, slopes, |y|)) else slopes[c]
  }

  /** Loss, beta loss and gradient rows of item `i` are what its rows, its label and the blank make them. */
  ghost predicate Means(batch: Batch, raw: seq<real>, s: Strides, g: Strides, blankLb: int, softmax: bool,
                        losses: seq<real>, betaLoss: seq<real>, gradients: seq<real>, i: nat)
    requires batch.Shaped() && i < |batch.inputLengths|
  {
    && i < |losses| && i < |betaLoss|
    && (exists y :: RowsAre(batch, raw, s, softmax, i, y))
    && forall b, y :: BlankIs(blankLb, batch.classes, b) && RowsAre(batch, raw, s, softmax, i, y) ==>
         ItemMeans(batch, y, b, g, softmax, losses[i], betaLoss[i], gradients, i)
  }

  ghost predicate ItemMeans(batch: Batch, y: Table, b: int, g: Strides, softmax: bool, loss: real, betaLoss: real,
                            gradients: seq<real>, i: nat)
    requires batch.Shaped() && i < |batch.inputLengths|
  {
    && loss == betaLoss == Probability(y, batch.classes, batch.Lab(i), b)
    && forall t: nat :: t < |y| ==> RowMeans(batch, y, b, g, softmax, gradients, i, t)
  }

  ghost predicate RowMeans(batch: Batch, y: Table, b: int, g: Strides, softmax: bool, gradients: seq<real>, i: nat,
                           t: nat)
    requires batch.Shaped() && i < |batch.inputLengths| && t < |y|
  {
    var at := t * g.time + i * g.batch;
    && |y[t]| == batch.classes && at + batch.classes <= |gradients|
    && exists slopes :: SlopesAre(y, batch.classes, batch.Lab(i), b, t, slopes)
                        && GradientIs(y[t], slopes, softmax, gradients[at..at + batch.classes])
  }

  // ---- The tables a run is computed from are these rows ----

  lemma ClampIs(blankLb: int, classes: nat, b: int)
    requires classes >= 1 && BlankIs(blankLb, classes, b)
    ensures ClampBlank(blankLb, classes) == b
  {
  }

  lemma RowStartIs(classes: nat, rows: nat, q: nat) returns (j: nat, k: nat)
    requires classes >= 1 && q < rows * classes
    ensures j < rows && k < classes && RowStart(classes, q) == j * classes == Row(classes, j, 0)
    ensures q == j * classes + k && RowStart(classes, q) + classes <= rows * classes
  {
    j, k := q / classes, q % classes;
    if j >= rows { RowsGrow(rows, j, classes); }
    RowsGrow(j + 1, rows, classes);
    RowValue(classes, j);
  }

  lemma SoftmaxAt(row: seq<real>, k: nat)
    requires AllPositive(row) && k < |row|
    ensures SoftmaxRow(row)[k] * RowTotal(row, |row|) == row[k]
  {
    TotalPositive(row, |row|);
    Cancelled(row[k], RowTotal(row, |row|));
  }

  lemma Cancelled(x: real, m: real)
    requires m != 0.0
    ensures x / m * m == x
  {
  }

  lemma ScaledPlace(raw: seq<real>, classes: nat, q: nat, base: nat, value: real)
    requires classes >= 1 && base == RowStart(classes, q) && q < |raw| && base + classes <= |raw|
    requires value * RowTotal(raw[base..base + classes], classes) == raw[q]
    ensures ValueIs(raw, classes, true, q, value)
  {
    hide RowStart, RowTotal;
  }

  lemma PartPositive(xs: seq<real>, from: nat, n: nat)
    requires AllPositive(xs) && from + n <= |xs|
    ensures AllPositive(xs[from..from + n])
  {
  }

  lemma SoftmaxPlace(raw: seq<real>, classes: nat, rows: nat, q: nat)
    requires AllPositive(raw) && |raw| == rows * classes && q < |raw| && classes >= 1
    requires |raw| == Row(classes, rows, 0)
    ensures ValueIs(raw, classes, true, q, SoftmaxRows(raw, classes, rows)[q])
  {
    hide *;
    var j, k := RowStartIs(classes, rows, q);
    var base, out := RowStart(classes, q), SoftmaxRows(raw, classes, rows);
    PartPositive(raw, base, classes);
    var row := raw[base..base + classes];
    SoftmaxRowsAt(raw, classes, rows, j);
    SoftmaxAt(row, k);
    assert out[base..base + classes][k] == out[base + k] && row[k] == raw[base + k];
    ScaledPlace(raw, classes, q, base, out[q]);
  }

  lemma RowsGrow(m: nat, n: nat, width: nat)
    requires m <= n
    ensures m * width <= n * width
  {
  }

  lemma PlaceHolds(batch: Batch, raw: seq<real>, softmax: bool, q: nat)
    requires batch.Shaped() && AllPositive(raw) && |raw| == batch.maxSteps * |batch.inputLengths| * batch.classes
    requires q < |raw|
    ensures ValueIs(raw, batch.classes, softmax, q, Used(batch, raw, softmax)[q])
  {
    var rows := batch.maxSteps * |batch.inputLengths|;
    RowValue(batch.classes, rows);
    if softmax {
      SoftmaxPlace(raw, batch.classes, rows, q);
    } else {
      var j, k := RowStartIs(batch.classes, rows, q);
    }
  }

  lemma ValueOnce(raw: seq<real>, classes: nat, softmax: bool, q: nat, a: real, b: real)
    requires classes >= 1 && AllPositive(raw)
    requires ValueIs(raw, classes, softmax, q, a) && ValueIs(raw, classes, softmax, q, b)
    ensures a == b
  {
    hide RowStart;
    var base := RowStart(classes, q);
    if softmax {
      TotalPositive(raw[base..base + classes], classes);
      hide RowTotal;
      SameFactor(a, b, RowTotal(raw[base..base + classes], classes));
    }
  }

  lemma SameFactor(a: real, b: real, m: real)
    requires a * m == b * m && m != 0.0
    ensures a == b
  {
    assert a * m / m == a;
  }

  /** The table of an item holds the caller's rows, and there is only one table that does. */
  lemma TableHolds(batch: Batch, raw: seq<real>, s: Strides, softmax: bool, i: nat)
    requires batch.Shaped() && AllPositive(raw) && |raw| == batch.maxSteps * |batch.inputLengths| * batch.classes
    requires i < |batch.inputLengths| && Fits(s, batch.inputLengths[i], i, batch.classes, |raw|)
    ensures var y := TableOf(Used(batch, raw, softmax), s, i, batch.inputLengths[i], batch.classes);
            RowsAre(batch, raw, s, softmax, i, y) && forall z :: RowsAre(batch, raw, s, softmax, i, z) ==> z == y
  {
    var probs, steps, classes := Used(batch, raw, softmax), batch.inputLengths[i], batch.classes;
    var y := TableOf(probs, s, i, steps, classes);
    hide Used, ValueIs;
    forall t: nat, c: nat | t < steps && c < classes
      ensures ValueIs(raw, classes, softmax, t * s.time + i * s.batch + c, y[t][c])
    {
      assert Offset(s, t, i, c) < |raw|;
      PlaceHolds(batch, raw, softmax, Offset(s, t, i, c));
    }
    forall z | RowsAre(batch, raw, s, softmax, i, z) ensures z == y { SameRows(batch, raw, s, softmax, i, y, z); }
  }

  lemma SameRows(batch: Batch, raw: seq<real>, s: Strides, softmax: bool, i: nat, y: Table, z: Table)
    requires batch.Shaped() && AllPositive(raw) && i < |batch.inputLengths|
    requires RowsAre(batch, raw, s, softmax, i, y) && RowsAre(batch, raw, s, softmax, i, z)
    ensures y == z
  {
    hide ValueIs;
    forall t: nat | t < |y| ensures y[t] == z[t] {
      forall c: nat | c < batch.classes ensures y[t][c] == z[t][c] {
        ValueOnce(raw, batch.classes, softmax, t * s.time + i * s.batch + c, y[t][c], z[t][c]);
      }
    }
  }

  // ---- What is delivered ----

  lemma {:induction false} DotIs(l: Lattice, t: nat, z: seq<real>, slopes: seq<real>, n: nat)
    requires l.Valid() && Positive(l.y) && t < |l.y| && |z| == l.classes && n <= l.classes && l.Likelihood(0) > 0.0
    requires |slopes| == l.classes && forall c: nat :: c < l.classes ==> slopes[c] == PlainGradient(l, 0, 0, t, c)
    ensures Dot(z, l.y[t], slopes, n) == GradientDot(l, t, z, n)
    ensures Mean(l.y[t], slopes, n) == GradientAlongRow(l, t, n)
  {
    hide PlainGradient;
    hide Lattice.Likelihood;
    if n > 0 { DotIs(l, t, z, slopes, n - 1); }
  }

  lemma PathsAreLikelihood(y: Table, lab: seq<int>, b: int, classes: nat)
    requires |y| >= 1 && IsTable(y, |y|, classes) && ValidLabel(lab, classes, b)
    ensures LatticeOf(y, lab, b, classes).Valid() && LatticeOf(y, lab, b, classes).Alternates()
    ensures LatticeOf(y, lab, b, classes).Likelihood(0) == Probability(y, classes, lab, b)
  {
    LikelihoodIsPathSum(y, lab, b, classes);
    LatticeOfValid(y, lab, b, classes);
  }

  /** The plain gradients of a row are the slopes of minus the logarithm of the label's probability. */
  lemma SlopesOf(y: Table, lab: seq<int>, b: int, classes: nat, t: nat, slopes: seq<real>)
    requires |y| >= 1 && IsTable(y, |y|, classes) && ValidLabel(lab, classes, b) && Positive(y) && t < |y|
    requires var l := LatticeOf(y, lab, b, classes);
             && l.Valid() && l.y == y && l.classes == classes && l.Likelihood(0) > 0.0 && |slopes| == classes
             && forall c: nat :: c < classes ==> slopes[c] == PlainGradient(l, 0, 0, t, c)
    ensures SlopesAre(y, classes, lab, b, t, slopes)
  {
    hide Probability, PlainGradient, GradientDot, Dot;
    hide Lattice.Likelihood;
    forall z: seq<real> | |z| == classes
      ensures Probability(y[t := z], classes, lab, b) - Probability(y, classes, lab, b)
              == -Probability(y, classes, lab, b) * Dot(z, y[t], slopes, classes)
    {
      SlopeAlong(y, lab, b, classes, t, slopes, z);
    }
  }

  lemma SlopeAlong(y: Table, lab: seq<int>, b: int, classes: nat, t: nat, slopes: seq<real>, z: seq<real>)
    requires |y| >= 1 && IsTable(y, |y|, classes) && ValidLabel(lab, classes, b) && Positive(y) && t < |y|
    requires var l := LatticeOf(y, lab, b, classes);
             && l.Valid() && l.y == y && l.classes == classes && l.Likelihood(0) > 0.0 && |slopes| == classes
             && forall c: nat :: c < classes ==> slopes[c] == PlainGradient(l, 0, 0, t, c)
    requires |z| == classes
    ensures Probability(y[t := z], classes, lab, b) - Probability(y, classes, lab, b)
            == -Probability(y, classes, lab, b) * Dot(z, y[t], slopes, classes)
  {
    hide Probability, PlainGradient, GradientDot, Dot, ValidLabel, LabelPrime;
    hide Lattice.Likelihood, Lattice.Alternates;
    var l, m := LatticeOf(y, lab, b, classes), LatticeOf(y[t := z], lab, b, classes);
    PathsAreLikelihood(y, lab, b, classes);
    PathsAreLikelihood(y[t := z], lab, b, classes);
    assert WithRow(l, t, z) == m;
    DotIs(l, t, z, slopes, classes);
    GradientIsDerivative(l, t, z);
  }

  lemma RowIs(batch: Batch, l: Lattice, b: int, g: Strides, softmax: bool, gradients: seq<real>, i: nat, t: nat)
    requires batch.Shaped() && i < |batch.inputLengths| && t < |l.y| && l.classes == batch.classes
    requires |l.y| >= 1 && IsTable(l.y, |l.y|, l.classes) && ValidLabel(batch.Lab(i), l.classes, b) && Positive(l.y)
    requires l == LatticeOf(l.y, batch.Lab(i), b, l.classes) && l.Valid() && l.Likelihood(0) > 0.0
    requires forall c: nat :: c < l.classes ==>
               Offset(g, t, i, c) < |gradients|
               && gradients[Offset(g, t, i, c)] == ModeGradient(l, 0, 0, t, c, softmax)
    ensures RowMeans(batch, l.y, b, g, softmax, gradients, i, t)
  {
    hide ModeGradient, PlainGradient, SoftmaxGradient, SlopesAre, ValidLabel, LabelPrime;
    hide Lattice.Likelihood, Lattice.Alternates;
    var at := t * g.time + i * g.batch;
    assert Offset(g, t, i, l.classes - 1) == at + l.classes - 1;
    var slopes := SlopeRow(l, t);
    SlopesOf(l.y, batch.Lab(i), b, l.classes, t, slopes);
    PathsAreLikelihood(l.y, batch.Lab(i), b, l.classes);
    var gradient := gradients[at..at + l.classes];
    forall c: nat | c < l.classes ensures gradient[c] == ModeGradient(l, 0, 0, t, c, softmax) {
      assert Offset(g, t, i, c) == at + c;
    }
    RowFrom(l, t, softmax, slopes, gradient);
  }

  function SlopeRow(l: Lattice, t: nat): (slopes: seq<real>)
    requires l.Valid() && Positive(l.y) && t < |l.y| && l.Likelihood(0) > 0.0
    ensures |slopes| == l.classes && forall c: nat :: c < l.classes ==> slopes[c] == PlainGradient(l, 0, 0, t, c)
  {
    seq(l.classes, c requires 0 <= c < l.classes && l.Valid() && Positive(l.y) && l.Likelihood(0) > 0.0
                   => PlainGradient(l, 0, 0, t, c))
  }

  lemma RowFrom(l: Lattice, t: nat, softmax: bool, slopes: seq<real>, gradient: seq<real>)
    requires l.Valid() && l.Alternates() && Positive(l.y) && t < |l.y| && l.Likelihood(0) > 0.0
    requires |slopes| == l.classes && forall c: nat :: c < l.classes ==> slopes[c] == PlainGradient(l, 0, 0, t, c)
    requires |gradient| == l.classes
    requires forall c: nat :: c < l.classes ==> gradient[c] == ModeGradient(l, 0, 0, t, c, softmax)
    ensures GradientIs(l.y[t], slopes, softmax, gradient)
  {
    hide PlainGradient, SoftmaxGradient, Mean;
    hide Lattice.Likelihood, Lattice.Alternates;
    DotIs(l, t, l.y[t], slopes, l.classes);
    forall c: nat | c < l.classes
      ensures gradient[c] == if softmax then l.y[t][c] * (slopes[c] - Mean(l.y[t], slopes, l.classes)) else slopes[c]
    {
      if softmax { SoftmaxGradientIsJacobian(l, t, c); }
    }
  }

  /** What is delivered for an item means what it should. */
  lemma DeliveredMeans(batch: Batch, raw: seq<real>, s: Strides, g: Strides, blankLb: int, softmax: bool,
                       losses: seq<real>, betaLoss: seq<real>, gradients: seq<real>, i: nat)
    requires Callable(batch, raw, s, g, blankLb) && batch.Accepted() && i < |batch.inputLengths|
    requires Delivers(batch, Used(batch, raw, softmax), s, g, blankLb, softmax, losses, betaLoss, gradients, i)
    ensures Means(batch, raw, s, g, blankLb, softmax, losses, betaLoss, gradients, i)
  {
    var probs := Used(batch, raw, softmax);
    CallableIsReady(batch, raw, s, g, blankLb, softmax);
    ItemReady(batch, probs, s, g, blankLb, i);
    TableHolds(batch, raw, s, softmax, i);
    var l := ItemOf(batch, probs, s, blankLb, i);
    assert l.y == TableOf(probs, s, i, batch.inputLengths[i], batch.classes);
    hide Used, RowsAre, Callable, Ready, BlankIs, RowMeans, TableOf, Probability, ModeGradient;
    hide Lattice.Likelihood, Lattice.BetaLoss, Lattice.ClassMass;
    forall b, y | BlankIs(blankLb, batch.classes, b) && RowsAre(batch, raw, s, softmax, i, y)
      ensures ItemMeans(batch, y, b, g, softmax, losses[i], betaLoss[i], gradients, i)
    {
      assert y == l.y;
      ClampIs(blankLb, batch.classes, b);
      PathsAreLikelihood(y, batch.Lab(i), b, batch.classes);
      forall t: nat | t < |y| ensures RowMeans(batch, y, b, g, softmax, gradients, i, t) {
        RowIs(batch, l, b, g, softmax, gradients, i, t);
      }
    }
  }

  // ---- Labels and their acceptance ----

  function Concatenated(items: seq<seq<int>>): seq<int> {
    if items == [] then [] else items[0] + Concatenated(items[1..])
  }

  lemma {:induction false} StartOf(items: seq<seq<int>>, lengths: seq<nat>, i: nat)
    requires |lengths| == |items| && (forall k :: 0 <= k < |items| ==> lengths[k] == |items[k]|) && i < |items|
    ensures Sum(lengths, i) + |items[i]| <= |Concatenated(items)|
    ensures Concatenated(items)[Sum(lengths, i)..Sum(lengths, i) + |items[i]|] == items[i]
    decreases i
  {
    if i > 0 {
      StartOf(items[1..], lengths[1..], i - 1);
      SumFirst(lengths, i);
      var rest, from := Concatenated(items[1..]), Sum(lengths[1..], i - 1);
      assert Concatenated(items)[Sum(lengths, i)..Sum(lengths, i) + |items[i]|] == rest[from..from + |items[i]|];
    }
  }

  lemma {:induction false} SumFirst(lengths: seq<nat>, n: nat)
    requires 1 <= n <= |lengths|
    ensures Sum(lengths, n) == lengths[0] + Sum(lengths[1..], n - 1)
  {
    if n > 1 { SumFirst(lengths, n - 1); }
  }

  /** Out of labels put one after another, every item gets its own. */
  lemma LabelsSplit(batch: Batch, items: seq<seq<int>>, i: nat)
    requires batch.Shaped() && i < |items| == |batch.inputLengths| && batch.labels == Concatenated(items)
    requires forall k :: 0 <= k < |items| ==> batch.labelLengths[k] == |items[k]|
    ensures batch.Lab(i) == items[i]
  {
    StartOf(items, batch.labelLengths, i);
  }

  /** The checks pass an item if and only if its input is not too long and can spell its label. */
  lemma AcceptedIffSpellable(batch: Batch, blankLb: int, b: int, i: nat)
    requires batch.Shaped() && batch.GoodLabels(blankLb) && i < |batch.inputLengths|
    requires BlankIs(blankLb, batch.classes, b)
    ensures batch.ItemAccepted(i)
       <==> batch.inputLengths[i] <= batch.maxSteps
            && exists p :: IsPath(p, batch.classes, batch.inputLengths[i]) && Collapse(p, b) == batch.Lab(i)
  {
    var lab, n := batch.Lab(i), batch.inputLengths[i];
    ClampIs(blankLb, batch.classes, b);
    if p :| IsPath(p, batch.classes, n) && Collapse(p, b) == lab {
      CollapseInside(p, b, batch.classes);
    }
    if forall k :: 0 <= k < |lab| ==> lab[k] < batch.classes {
      FeasibleIffSpellable(lab, b, batch.classes, n);
    }
  }

  lemma {:induction false} CollapseInside(p: seq<int>, b: int, classes: nat)
    requires forall k :: 0 <= k < |p| ==> p[k] < classes
    ensures forall k :: 0 <= k < |Collapse(p, b)| ==> Collapse(p, b)[k] < classes
  {
    if p != [] {
      var q, c := p[..|p| - 1], p[|p| - 1];
      assert p == q + [c];
      CollapseInside(q, b, classes);
      CollapseSnoc(q, c, b);
    }
  }
}
