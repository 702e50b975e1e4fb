/**
 Connectionist temporal classification over a blank-extended label, in the probability
 domain: log-domain addition is multiplication, log-add-exp is addition and the cut-off
 value is zero.  The definitions here are the recurrences the loops fill their tables with.
 */
module CtcSpec {

  /** One row per time step, one probability per class. */
  type Table = seq<seq<real>>

  ghost predicate IsTable(y: Table, steps: nat, classes: nat) {
    |y| == steps && forall t :: 0 <= t < steps ==> |y[t]| == classes
  }

  ghost predicate Positive(y: Table) {
    forall t, c :: 0 <= t < |y| && 0 <= c < |y[t]| ==> y[t][c] > 0.0
  }

  function ClampBlank(blank: int, classes: int): int {
    if blank < 0 then 0 else if blank >= classes then classes - 1 else blank
  }

  ghost predicate ValidLabel(lab: seq<int>, classes: nat, blank: int) {
    && |lab| >= 1
    && 0 <= blank < classes
    && forall i :: 0 <= i < |lab| ==> 0 <= lab[i] < classes && lab[i] != blank
  }

  /** The label with a blank before, between and after its entries. */
  function LabelPrime(lab: seq<int>, blank: int): (lp: seq<int>)
    ensures |lp| == 2 * |lab| + 1
  {
    seq(2 * |lab| + 1, i requires 0 <= i < 2 * |lab| + 1 => if i % 2 == 1 then lab[i / 2] else blank)
  }

  lemma LabelPrimeCells(lab: seq<int>, blank: int, k: nat)
    requires k <= |lab|
    ensures LabelPrime(lab, blank)[2 * k] == blank
    ensures k >= 1 ==> LabelPrime(lab, blank)[2 * k - 1] == lab[k - 1]
  {
  }

  /** Adjacent equal entries among the first `k` label entries. */
  function Repeats(lab: seq<int>, k: nat): nat
    requires k <= |lab|
  {
    if k <= 1 then 0
    else Repeats(lab, k - 1) + (if lab[k - 1] == lab[k - 2] then 1 else 0)
  }

  predicate Feasible(lab: seq<int>, steps: nat) {
    |lab| + Repeats(lab, |lab|) <= steps
  }

  datatype Lattice = Lattice(y: Table, lp: seq<int>, blank: int, classes: nat) {
    ghost predicate Valid() {
      && |lp| >= 3
      && |y| >= 1
      && IsTable(y, |y|, classes)
      && forall i :: 0 <= i < |lp| ==> 0 <= lp[i] < classes
    }

    /** A cell may be entered from two cells below when it is no blank and no repeat. */
    predicate Skips(i: nat)
      requires i < |lp|
    {
      i >= 2 && lp[i] != blank && lp[i] != lp[i - 2]
    }

    /** The same test as the backward pass makes it, from the lower cell. */
    predicate Jumps(i: nat)
      requires i < |lp|
    {
      i + 2 < |lp| && lp[i] != blank && lp[i] != lp[i + 2]
    }

    /** Blanks on even cells, classes on odd ones. */
    ghost predicate Alternates() {
      && |lp| % 2 == 1
      && forall i :: 0 <= i < |lp| ==> (lp[i] == blank <==> i % 2 == 0)
    }

    function Prob(t: nat, i: nat): real
      requires Valid() && t < |y| && i < |lp|
    {
      y[t][lp[i]]
    }

    /** What reaches cell `(t, i)` from above; `first` is 1 when the leading blank is suppressed. */
    function AlphaIn(first: nat, t: nat, i: nat): real
      requires Valid() && t < |y| && i < |lp|
      decreases t, 0
    {
      if t == 0 then
        if first <= i <= 1 then 1.0 else 0.0
      else
        Alpha(first, t - 1, i)
        + (if i >= 1 then Alpha(first, t - 1, i - 1) else 0.0)
        + (if Skips(i) then Alpha(first, t - 1, i - 2) else 0.0)
    }

    function Alpha(first: nat, t: nat, i: nat): real
      requires Valid() && t < |y| && i < |lp|
      decreases t, 1
    {
      AlphaIn(first, t, i) * Prob(t, i)
    }

    /** What leaves cell `(t, i)`; `last` is 1 when the trailing blank is suppressed. */
    function BetaOut(last: nat, t: nat, i: nat): real
      requires Valid() && t < |y| && i < |lp|
      decreases |y| - t, 0
    {
      if t == |y| - 1 then
        if |lp| - 2 <= i && i + last <= |lp| - 1 then 1.0 else 0.0
      else
        Beta(last, t + 1, i)
        + (if i + 1 < |lp| then Beta(last, t + 1, i + 1) else 0.0)
        + (if Jumps(i) then Beta(last, t + 1, i + 2) else 0.0)
    }

    function Beta(last: nat, t: nat, i: nat): real
      requires Valid() && t < |y| && i < |lp|
      decreases |y| - t, 1
    {
      BetaOut(last, t, i) * Prob(t, i)
    }

    /** The probability of the label: the loss is its negated logarithm. */
    function Likelihood(first: nat): real
      requires Valid()
    {
      Alpha(first, |y| - 1, |lp| - 1) + Alpha(first, |y| - 1, |lp| - 2)
    }

    function BetaLoss(last: nat): real
      requires Valid()
    {
      Beta(last, 0, 0) + Beta(last, 0, 1)
    }

    /** Products alpha * beta of the cells below `n` that carry class `c`. */
    function ClassMass(first: nat, last: nat, t: nat, c: int, n: nat): real
      requires Valid() && t < |y| && n <= |lp|
    {
      if n == 0 then 0.0
      else ClassMass(first, last, t, c, n - 1)
           + (if lp[n - 1] == c then Alpha(first, t, n - 1) * Beta(last, t, n - 1) else 0.0)
    }
  }

  function LatticeOf(y: Table, lab: seq<int>, blank: int, classes: nat): Lattice {
    Lattice(y, LabelPrime(lab, blank), blank, classes)
  }

  lemma LatticeOfValid(y: Table, lab: seq<int>, blank: int, classes: nat)
    requires |y| >= 1 && IsTable(y, |y|, classes)
    requires ValidLabel(lab, classes, blank)
    ensures LatticeOf(y, lab, blank, classes).Valid() && LatticeOf(y, lab, blank, classes).Alternates()
  {
    var lp := LabelPrime(lab, blank);
    forall i | 0 <= i < |lp| ensures 0 <= lp[i] < classes && (lp[i] == blank <==> i % 2 == 0) {
      LabelPrimeCells(lab, blank, (i + 1) / 2);
    }
  }
}
