/**
 The reference path: full forward and backward tables, then one gradient entry at a time by
 gathering the cells that carry its class.
 */
module CtcReference {
  import opened CtcSpec
  import opened CtcLayout
  import opened CtcGradient

  /** The problem of one batch item, read out of the flat probabilities. */
  function ItemLattice(probs: seq<real>, s: Strides, b: nat, steps: nat, classes: nat, lab: seq<int>,
                       blankLb: int): Lattice
    requires Fits(s, steps, b, classes, |probs|)
  {
    LatticeOf(TableOf(probs, s, b, steps, classes), lab, ClampBlank(blankLb, classes), classes)
  }

  ghost predicate ItemOk(probs: seq<real>, s: Strides, b: nat, steps: nat, classes: nat, lab: seq<int>, blankLb: int) {
    && steps >= 1
    && Fits(s, steps, b, classes, |probs|)
    && ValidLabel(lab, classes, ClampBlank(blankLb, classes))
  }

  lemma ItemFacts(probs: seq<real>, s: Strides, b: nat, steps: nat, classes: nat, lab: seq<int>, blankLb: int)
    requires ItemOk(probs, s, b, steps, classes, lab, blankLb)
    ensures var l := ItemLattice(probs, s, b, steps, classes, lab, blankLb);
            && l.Valid() && l.Alternates()
            && |l.y| == steps && |l.lp| == 2 * |lab| + 1 && l.classes == classes
            && l.blank == ClampBlank(blankLb, classes) && l.lp == LabelPrime(lab, l.blank)
            && forall t: nat, c: nat :: t < steps && c < classes ==> l.y[t][c] == probs[Offset(s, t, b, c)]
  {
    LatticeOfValid(TableOf(probs, s, b, steps, classes), lab, ClampBlank(blankLb, classes), classes);
  }

  method FillLabelPrime(lab: seq<int>, blank: int) returns (lp: array<int>)
    ensures fresh(lp) && lp[..] == LabelPrime(lab, blank)
  {
    lp := new int[2 * |lab| + 1](_ => blank);
    for i := 0 to |lab|
      invariant forall k :: 0 <= k < i ==> lp[2 * k + 1] == lab[k]
      invariant forall k :: 0 <= k < lp.Length && (k % 2 == 0 || k >= 2 * i) ==> lp[k] == blank
    {
      lp[2 * i + 1] := lab[i];
    }
    forall k | 0 <= k < lp.Length ensures lp[k] == LabelPrime(lab, blank)[k] {
      LabelPrimeCells(lab, blank, (k + 1) / 2);
      if k % 2 == 1 { assert lp[2 * (k / 2) + 1] == lab[k / 2]; }
    }
  }

  lemma AlphaStart(l: Lattice, first: nat, i: nat)
    requires l.Valid() && i < |l.lp|
    ensures l.Alpha(first, 0, i) == if first <= i <= 1 then l.y[0][l.lp[i]] else 0.0
  {
  }

  lemma AlphaNext(l: Lattice, first: nat, t: nat, i: nat)
    requires l.Valid() && 1 <= t < |l.y| && i < |l.lp|
    ensures l.Alpha(first, t, i) ==
              (l.Alpha(first, t - 1, i)
               + (if i >= 1 then l.Alpha(first, t - 1, i - 1) else 0.0)
               + (if i >= 2 && l.lp[i] != l.blank && l.lp[i] != l.lp[i - 2] then l.Alpha(first, t - 1, i - 2) else 0.0))
              * l.y[t][l.lp[i]]
  {
    hide *;
    AlphaEntered(l, first, t, i);
    AlphaProduct(l, first, t, i);
  }

  lemma AlphaProduct(l: Lattice, first: nat, t: nat, i: nat)
    requires l.Valid() && t < |l.y| && i < |l.lp|
    ensures l.lp[i] < |l.y[t]| && l.Alpha(first, t, i) == l.AlphaIn(first, t, i) * l.y[t][l.lp[i]]
  {
    hide Lattice.AlphaIn;
  }

  lemma AlphaEntered(l: Lattice, first: nat, t: nat, i: nat)
    requires l.Valid() && 1 <= t < |l.y| && i < |l.lp|
    ensures l.AlphaIn(first, t, i) ==
              l.Alpha(first, t - 1, i)
              + (if i >= 1 then l.Alpha(first, t - 1, i - 1) else 0.0)
              + (if i >= 2 && l.lp[i] != l.blank && l.lp[i] != l.lp[i - 2] then l.Alpha(first, t - 1, i - 2) else 0.0)
  {
    hide Lattice.Alpha;
  }

  /** The row of cells that starts at `base` holds row `t` of the forward table. */
  ghost predicate HoldsAlpha(cells: seq<real>, base: int, l: Lattice, first: nat, t: nat)
    requires l.Valid() && t < |l.y|
  {
    && 0 <= base && base + |l.lp| <= |cells|
    && forall i: nat :: i < |l.lp| ==> cells[base + i] == l.Alpha(first, t, i)
  }

  /** Row `j`, cell by cell in place; the first row has two entries only. */
  method ForwardRow(alpha: array<real>, lp: array<int>, blank: int, probs: seq<real>, s: Strides, b: nat, j: nat,
                    base: nat, ghost l: Lattice)
    requires l.Valid() && lp[..] == l.lp && blank == l.blank && j < |l.y|
    requires forall c: nat :: c < l.classes ==> Offset(s, j, b, c) < |probs| && l.y[j][c] == probs[Offset(s, j, b, c)]
    requires base + lp.Length <= alpha.Length
    requires j >= 1 ==> HoldsAlpha(alpha[..], base - lp.Length, l, 0, j - 1)
    requires j == 0 ==> forall i: nat :: base <= i < base + lp.Length ==> alpha[i] == 0.0
    modifies alpha
    ensures HoldsAlpha(alpha[..], base, l, 0, j)
    ensures forall q :: 0 <= q < alpha.Length && !(base <= q < base + lp.Length) ==> alpha[q] == old(alpha[q])
  {
    hide Lattice.Alpha, Lattice.Skips;
    hide Offset;
    var i := 0;
    while i < lp.Length
      invariant i <= lp.Length
      invariant forall k: nat :: k < i ==> alpha[base + k] == l.Alpha(0, j, k)
      invariant forall q :: 0 <= q < alpha.Length && !(base <= q < base + i) ==> alpha[q] == old(alpha[q])
    {
      var ts := base + i;
      var p := probs[Offset(s, j, b, lp[i])];
      if j == 0 && i > 1 {
        break;
      } else if j == 0 {
        alpha[ts] := p;
        AlphaStart(l, 0, i);
      } else {
        var t1s := ts - lp.Length;
        alpha[ts] := alpha[t1s];
        if i >= 1 {
          alpha[ts] := alpha[ts] + alpha[t1s - 1];
        }
        if i >= 2 {
          if lp[i] != blank && lp[i] != lp[i - 2] {
            alpha[ts] := alpha[ts] + alpha[t1s - 2];
          }
        }
        alpha[ts] := alpha[ts] * p;
        AlphaNext(l, 0, j, i);
        assert alpha[ts] == l.Alpha(0, j, i);
      }
      i := i + 1;
    }
    forall k: nat | i <= k < lp.Length ensures alpha[base + k] == l.Alpha(0, j, k) { AlphaStart(l, 0, k); }
  }

  ghost predicate AlphaTable(cells: seq<real>, offset: int, l: Lattice, first: nat)
    requires l.Valid()
  {
    forall t: nat :: t < |l.y| ==> HoldsAlpha(cells, offset + Row(|l.lp|, t, 0), l, first, t)
  }

  method CtcForward(probs: seq<real>, lab: seq<int>, steps: nat, classes: nat, s: Strides, b: nat, blankLb: int)
    returns (alpha: array<real>)
    requires ItemOk(probs, s, b, steps, classes, lab, blankLb)
    ensures fresh(alpha) && alpha.Length == steps * (2 * |lab| + 1)
    ensures var l := ItemLattice(probs, s, b, steps, classes, lab, blankLb);
            l.Valid() && AlphaTable(alpha[..], 0, l, 0)
  {
    ghost var l := ItemLattice(probs, s, b, steps, classes, lab, blankLb);
    ItemFacts(probs, s, b, steps, classes, lab, blankLb);
    var width := 2 * |lab| + 1;
    var blank := ClampBlank(blankLb, classes);
    var lp := FillLabelPrime(lab, blank);
    alpha := new real[steps * width](_ => 0.0);
    RowsStack(width, steps);
    hide Row, LabelPrime, ItemLattice, Offset;
    hide Lattice.Alpha;
    for j := 0 to steps
      invariant lp[..] == l.lp
      invariant forall t: nat :: t < j ==> HoldsAlpha(alpha[..], Row(width, t, 0), l, 0, t)
      invariant j == 0 ==> forall q :: 0 <= q < alpha.Length ==> alpha[q] == 0.0
    {
      if j >= 1 { RowNext(width, j - 1); }
      ForwardRow(alpha, lp, blank, probs, s, b, j, Row(width, j, 0), l);
    }
  }

  // ---- Backward table ----

  lemma BetaStart(l: Lattice, last: nat, i: nat)
    requires l.Valid() && i < |l.lp|
    ensures l.Beta(last, |l.y| - 1, i)
         == if |l.lp| - 2 <= i && i + last <= |l.lp| - 1 then l.y[|l.y| - 1][l.lp[i]] else 0.0
  {
  }

  lemma BetaNext(l: Lattice, last: nat, t: nat, i: nat)
    requires l.Valid() && t + 1 < |l.y| && i < |l.lp|
    ensures l.Beta(last, t, i) ==
              (l.Beta(last, t + 1, i)
               + (if i + 1 < |l.lp| then l.Beta(last, t + 1, i + 1) else 0.0)
               + (if i + 2 < |l.lp| && l.lp[i] != l.blank && l.lp[i] != l.lp[i + 2]
                  then l.Beta(last, t + 1, i + 2) else 0.0))
              * l.y[t][l.lp[i]]
  {
  }

  ghost predicate HoldsBeta(cells: seq<real>, base: int, l: Lattice, last: nat, t: nat)
    requires l.Valid() && t < |l.y|
  {
    && 0 <= base && base + |l.lp| <= |cells|
    && forall i: nat :: i < |l.lp| ==> cells[base + i] == l.Beta(last, t, i)
  }

  ghost predicate BetaTable(cells: seq<real>, l: Lattice, last: nat)
    requires l.Valid()
  {
    forall t: nat :: t < |l.y| ==> HoldsBeta(cells, Row(|l.lp|, t, 0), l, last, t)
  }

  /** Row `j1`, from its last cell down. */
  method BackwardRow(beta: array<real>, lp: array<int>, blank: int, probs: seq<real>, s: Strides, b: nat, j1: nat,
                     j: nat, base: nat, ghost l: Lattice)
    requires l.Valid() && lp[..] == l.lp && blank == l.blank && j1 + j == |l.y| - 1
    requires forall c: nat :: c < l.classes ==>
               Offset(s, j1, b, c) < |probs| && l.y[j1][c] == probs[Offset(s, j1, b, c)]
    requires base + lp.Length <= beta.Length
    requires j >= 1 ==> HoldsBeta(beta[..], base + lp.Length, l, 0, j1 + 1)
    requires j == 0 ==> forall i: nat :: base <= i < base + lp.Length ==> beta[i] == 0.0
    modifies beta
    ensures HoldsBeta(beta[..], base, l, 0, j1)
    ensures forall q :: 0 <= q < beta.Length && !(base <= q < base + lp.Length) ==> beta[q] == old(beta[q])
  {
    hide Lattice.Beta, Lattice.Jumps;
    hide Offset;
    var i := 0;
    while i < lp.Length
      invariant i <= lp.Length
      invariant forall k: nat :: lp.Length - i <= k < lp.Length ==> beta[base + k] == l.Beta(0, j1, k)
      invariant forall q :: 0 <= q < beta.Length && !(base + lp.Length - i <= q < base + lp.Length) ==>
                  beta[q] == old(beta[q])
    {
      var i1 := lp.Length - 1 - i;
      var ts := base + i1;
      var p := probs[Offset(s, j1, b, lp[i1])];
      if j == 0 && i > 1 {
        break;
      } else if j == 0 {
        beta[ts] := p;
        BetaStart(l, 0, i1);
      } else {
        var t1s := ts + lp.Length;
        beta[ts] := beta[t1s];
        if i1 <= lp.Length - 2 {
          beta[ts] := beta[ts] + beta[t1s + 1];
        }
        if i1 <= lp.Length - 3 {
          if lp[i1] != blank && lp[i1] != lp[i1 + 2] {
            beta[ts] := beta[ts] + beta[t1s + 2];
          }
        }
        beta[ts] := beta[ts] * p;
        BetaNext(l, 0, j1, i1);
      }
      i := i + 1;
    }
    forall k: nat | k < lp.Length - i ensures beta[base + k] == l.Beta(0, j1, k) { BetaStart(l, 0, k); }
  }

  method CtcBackward(probs: seq<real>, lab: seq<int>, steps: nat, classes: nat, s: Strides, b: nat, blankLb: int)
    returns (beta: array<real>)
    requires ItemOk(probs, s, b, steps, classes, lab, blankLb)
    ensures fresh(beta) && beta.Length == steps * (2 * |lab| + 1)
    ensures var l := ItemLattice(probs, s, b, steps, classes, lab, blankLb);
            l.Valid() && BetaTable(beta[..], l, 0)
  {
    ghost var l := ItemLattice(probs, s, b, steps, classes, lab, blankLb);
    ItemFacts(probs, s, b, steps, classes, lab, blankLb);
    var width := 2 * |lab| + 1;
    var blank := ClampBlank(blankLb, classes);
    var lp := FillLabelPrime(lab, blank);
    beta := new real[steps * width](_ => 0.0);
    RowsStack(width, steps);
    hide Row, LabelPrime, ItemLattice, Offset;
    hide Lattice.Beta;
    for j := 0 to steps
      invariant lp[..] == l.lp
      invariant forall t: nat :: steps - j <= t < steps ==> HoldsBeta(beta[..], Row(width, t, 0), l, 0, t)
      invariant j == 0 ==> forall q :: 0 <= q < beta.Length ==> beta[q] == 0.0
    {
      var j1 := steps - 1 - j;
      RowNext(width, j1);
      BackwardRow(beta, lp, blank, probs, s, b, j1, j, Row(width, j1, 0), l);
    }
  }

  // ---- Gradients ----

  /** Gathers the cells of one class of row `t` into one gradient entry, in place. */
  method GatherClass(gradients: array<real>, gidx: nat, lp: array<int>, alpha: array<real>, beta: array<real>,
                     base: nat, c: int, ghost l: Lattice, ghost t: nat)
    requires l.Valid() && t < |l.y| && lp[..] == l.lp && gidx < gradients.Length
    requires gradients != alpha && gradients != beta
    requires HoldsAlpha(alpha[..], base, l, 0, t) && HoldsBeta(beta[..], base, l, 0, t)
    modifies gradients
    ensures gradients[gidx] == l.ClassMass(0, 0, t, c, |l.lp|)
    ensures forall q :: 0 <= q < gradients.Length && q != gidx ==> gradients[q] == old(gradients[q])
  {
    hide Lattice.Alpha, Lattice.Beta;
    gradients[gidx] := 0.0;
    for k := 0 to lp.Length
      invariant gradients[gidx] == l.ClassMass(0, 0, t, c, k)
      invariant forall q :: 0 <= q < gradients.Length && q != gidx ==> gradients[q] == old(gradients[q])
    {
      if lp[k] == c {
        gradients[gidx] := gradients[gidx] + alpha[base + k] * beta[base + k];
      }
    }
  }

  /** The gradient without a softmax layer; steps after the input's end get zero. */
  method CtcGradientLog(lab: seq<int>, steps: nat, maxSteps: nat, batches: nat, classes: nat, s: Strides, g: Strides,
                        b: nat, probs: seq<real>, gradients: array<real>, blankLb: int)
    requires ItemOk(probs, s, b, steps, classes, lab, blankLb) && steps <= maxSteps && b < batches
    requires var l := ItemLattice(probs, s, b, steps, classes, lab, blankLb);
             l.Valid() && Positive(l.y) && l.Likelihood(0) > 0.0
    requires Fits(g, maxSteps, b, classes, gradients.Length) && Separate(g, maxSteps, batches, classes)
    modifies gradients
    ensures var l := ItemLattice(probs, s, b, steps, classes, lab, blankLb);
            forall t: nat, c: nat :: t < steps && c < classes ==>
              gradients[Offset(g, t, b, c)] == PlainGradient(l, 0, 0, t, c)
    ensures forall t: nat, c: nat :: steps <= t < maxSteps && c < classes ==> gradients[Offset(g, t, b, c)] == 0.0
    ensures forall q :: 0 <= q < gradients.Length && !Touches(g, maxSteps, b, classes, q) ==>
              gradients[q] == old(gradients[q])
  {
    ghost var l := ItemLattice(probs, s, b, steps, classes, lab, blankLb);
    ItemFacts(probs, s, b, steps, classes, lab, blankLb);
    var lp := FillLabelPrime(lab, ClampBlank(blankLb, classes));
    var alpha := CtcForward(probs, lab, steps, classes, s, b, blankLb);
    var beta := CtcBackward(probs, lab, steps, classes, s, b, blankLb);
    var likelihood := Ends(alpha, l, steps);
    var width := lp.Length;
    hide Row, LabelPrime, ItemLattice, Offset;
    hide Lattice.Alpha, Lattice.Beta, Lattice.ClassMass, Lattice.Likelihood;
    for j := 0 to steps
      invariant lp[..] == l.lp && AlphaTable(alpha[..], 0, l, 0) && BetaTable(beta[..], l, 0)
      invariant forall t: nat, c: nat :: t < j && c < classes ==>
                  gradients[Offset(g, t, b, c)] == PlainGradient(l, 0, 0, t, c)
      invariant forall q :: 0 <= q < gradients.Length && !Touches(g, maxSteps, b, classes, q) ==>
                  gradients[q] == old(gradients[q])
    {
      for i := 0 to classes
        invariant lp[..] == l.lp && AlphaTable(alpha[..], 0, l, 0) && BetaTable(beta[..], l, 0)
        invariant forall t: nat, c: nat :: (t < j && c < classes) || (t == j && c < i) ==>
                    gradients[Offset(g, t, b, c)] == PlainGradient(l, 0, 0, t, c)
        invariant forall q :: 0 <= q < gradients.Length && !Touches(g, maxSteps, b, classes, q) ==>
                    gradients[q] == old(gradients[q])
      {
        var y := probs[Offset(s, j, b, i)];
        var gidx := Offset(g, j, b, i);
        GatherClass(gradients, gidx, lp, alpha, beta, Row(width, j, 0), i, l, j);
        gradients[gidx] := gradients[gidx] / y / y;
        gradients[gidx] := gradients[gidx] / likelihood;
        gradients[gidx] := -gradients[gidx];
      }
    }
    ClearTail(gradients, g, steps, maxSteps, b, batches, classes, l);
  }

  /** Gradient cells past the end of the input. */
  method ClearTail(gradients: array<real>, g: Strides, steps: nat, maxSteps: nat, b: nat, batches: nat, classes: nat,
                   ghost l: Lattice)
    requires l.Valid() && Positive(l.y) && l.Likelihood(0) > 0.0 && |l.y| == steps <= maxSteps && l.classes == classes
    requires b < batches && Fits(g, maxSteps, b, classes, gradients.Length) && Separate(g, maxSteps, batches, classes)
    requires forall t: nat, c: nat :: t < steps && c < classes ==>
               gradients[Offset(g, t, b, c)] == PlainGradient(l, 0, 0, t, c)
    modifies gradients
    ensures forall t: nat, c: nat :: t < steps && c < classes ==>
              gradients[Offset(g, t, b, c)] == PlainGradient(l, 0, 0, t, c)
    ensures forall t: nat, c: nat :: steps <= t < maxSteps && c < classes ==> gradients[Offset(g, t, b, c)] == 0.0
    ensures forall q :: 0 <= q < gradients.Length && !Touches(g, maxSteps, b, classes, q) ==>
              gradients[q] == old(gradients[q])
  {
    hide Offset, PlainGradient;
    hide Lattice.Likelihood;
    for j := steps to maxSteps
      invariant forall t: nat, c: nat :: t < steps && c < classes ==>
                  gradients[Offset(g, t, b, c)] == PlainGradient(l, 0, 0, t, c)
      invariant forall t: nat, c: nat :: steps <= t < j && c < classes ==> gradients[Offset(g, t, b, c)] == 0.0
      invariant forall q :: 0 <= q < gradients.Length && !Touches(g, maxSteps, b, classes, q) ==>
                  gradients[q] == old(gradients[q])
    {
      for i := 0 to classes
        invariant forall t: nat, c: nat :: t < steps && c < classes ==>
                    gradients[Offset(g, t, b, c)] == PlainGradient(l, 0, 0, t, c)
        invariant forall t: nat, c: nat :: (steps <= t < j && c < classes) || (t == j && c < i) ==>
                    gradients[Offset(g, t, b, c)] == 0.0
        invariant forall q :: 0 <= q < gradients.Length && !Touches(g, maxSteps, b, classes, q) ==>
                    gradients[q] == old(gradients[q])
      {
        gradients[Offset(g, j, b, i)] := 0.0;
      }
    }
  }

  /** The last two cells of the forward table. */
  method Ends(alpha: array<real>, ghost l: Lattice, steps: nat) returns (likelihood: real)
    requires l.Valid() && |l.y| == steps && alpha.Length == steps * |l.lp| && AlphaTable(alpha[..], 0, l, 0)
    ensures likelihood == l.Likelihood(0)
  {
    hide Lattice.Alpha;
    assert HoldsAlpha(alpha[..], Row(|l.lp|, steps - 1, 0), l, 0, steps - 1);
    assert alpha.Length == (steps - 1) * |l.lp| + |l.lp|;
    likelihood := alpha[alpha.Length - 1] + alpha[alpha.Length - 2];
  }

  /** The gradient behind a softmax layer. */
  method CtcSoftmaxLayerGradientLog(lab: seq<int>, steps: nat, batches: nat, classes: nat, s: Strides, g: Strides,
                                    b: nat, probs: seq<real>, gradients: array<real>, blankLb: int)
    requires ItemOk(probs, s, b, steps, classes, lab, blankLb) && b < batches
    requires var l := ItemLattice(probs, s, b, steps, classes, lab, blankLb);
             l.Valid() && Positive(l.y) && l.Likelihood(0) > 0.0
    requires Fits(g, steps, b, classes, gradients.Length) && Separate(g, steps, batches, classes)
    modifies gradients
    ensures var l := ItemLattice(probs, s, b, steps, classes, lab, blankLb);
            forall t: nat, c: nat :: t < steps && c < classes ==>
              gradients[Offset(g, t, b, c)] == SoftmaxGradient(l, 0, 0, t, c)
    ensures forall q :: 0 <= q < gradients.Length && !Touches(g, steps, b, classes, q) ==>
              gradients[q] == old(gradients[q])
  {
    ghost var l := ItemLattice(probs, s, b, steps, classes, lab, blankLb);
    ItemFacts(probs, s, b, steps, classes, lab, blankLb);
    var lp := FillLabelPrime(lab, ClampBlank(blankLb, classes));
    var alpha := CtcForward(probs, lab, steps, classes, s, b, blankLb);
    var beta := CtcBackward(probs, lab, steps, classes, s, b, blankLb);
    var likelihood := Ends(alpha, l, steps);
    var width := lp.Length;
    hide Row, LabelPrime, ItemLattice, Offset;
    hide Lattice.Alpha, Lattice.Beta, Lattice.ClassMass, Lattice.Likelihood;
    for j := 0 to steps
      invariant lp[..] == l.lp && AlphaTable(alpha[..], 0, l, 0) && BetaTable(beta[..], l, 0)
      invariant forall t: nat, c: nat :: t < j && c < classes ==>
                  gradients[Offset(g, t, b, c)] == SoftmaxGradient(l, 0, 0, t, c)
      invariant forall q :: 0 <= q < gradients.Length && !Touches(g, steps, b, classes, q) ==>
                  gradients[q] == old(gradients[q])
    {
      for i := 0 to classes
        invariant lp[..] == l.lp && AlphaTable(alpha[..], 0, l, 0) && BetaTable(beta[..], l, 0)
        invariant forall t: nat, c: nat :: (t < j && c < classes) || (t == j && c < i) ==>
                    gradients[Offset(g, t, b, c)] == SoftmaxGradient(l, 0, 0, t, c)
        invariant forall q :: 0 <= q < gradients.Length && !Touches(g, steps, b, classes, q) ==>
                    gradients[q] == old(gradients[q])
      {
        var y := probs[Offset(s, j, b, i)];
        var gidx := Offset(g, j, b, i);
        GatherClass(gradients, gidx, lp, alpha, beta, Row(width, j, 0), i, l, j);
        gradients[gidx] := gradients[gidx] / y;
        gradients[gidx] := gradients[gidx] / likelihood;
        gradients[gidx] := y - gradients[gidx];
      }
    }
  }
}
