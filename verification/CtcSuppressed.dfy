/** What the forward table sums over when its leading blank is suppressed. */
module CtcSuppressed {
  import opened CtcSpec
  import opened CtcPaths
  import opened CtcGradient
  import opened CtcTight

  /** The table with no probability left for a blank at the first step. */
  function Masked(y: Table, blank: int): Table
    requires |y| >= 1 && 0 <= blank < |y[0]|
  {
    y[0 := y[0][blank := 0.0]]
  }

  lemma MaskedProblem(y: Table, lab: seq<int>, blank: int, classes: nat)
    requires Problem(y, lab, blank, classes)
    ensures 0 <= blank < |y[0]| && |Masked(y, blank)| == |y| && Problem(Masked(y, blank), lab, blank, classes)
  {
    LatticeOfValid(Masked(y, blank), lab, blank, classes);
  }

  /** A cell of one table is a cell of another when the row is the same and so is what it is reached from. */
  lemma SameCell(l: Lattice, m: Lattice, t: nat, i: nat)
    requires l.Valid() && m.Valid() && l.lp == m.lp && l.blank == m.blank
    requires 0 < t < |l.y| == |m.y| && l.y[t] == m.y[t] && i < |l.lp|
    requires l.Alpha(1, t - 1, i) == m.Alpha(0, t - 1, i)
    requires i >= 1 ==> l.Alpha(1, t - 1, i - 1) == m.Alpha(0, t - 1, i - 1)
    requires i >= 2 ==> l.Alpha(1, t - 1, i - 2) == m.Alpha(0, t - 1, i - 2)
    ensures l.Alpha(1, t, i) == m.Alpha(0, t, i)
  {
    assert l.AlphaIn(1, t, i) == m.AlphaIn(0, t, i) by { hide Lattice.Alpha; }
    assert l.Prob(t, i) == m.Prob(t, i);
    hide Lattice.AlphaIn, Lattice.Prob;
  }

  /** Not starting on the blank is starting on a blank that cannot occur. */
  lemma {:induction false} AlphaMasked(y: Table, lab: seq<int>, blank: int, classes: nat, t: nat, i: nat)
    requires Problem(y, lab, blank, classes) && Problem(Masked(y, blank), lab, blank, classes)
    requires t < |y| && i < 2 * |lab| + 1
    ensures LatticeOf(y, lab, blank, classes).Alpha(1, t, i)
            == LatticeOf(Masked(y, blank), lab, blank, classes).Alpha(0, t, i)
    decreases t
  {
    var l, m := LatticeOf(y, lab, blank, classes), LatticeOf(Masked(y, blank), lab, blank, classes);
    if t == 0 {
      LabelPrimeCells(lab, blank, 0);
      LabelPrimeCells(lab, blank, 1);
      hide LabelPrime;
    } else {
      assert |m.y| == |y| && m.y[t] == y[t];
      hide LabelPrime, Masked, Lattice.AlphaIn;
      AlphaMasked(y, lab, blank, classes, t - 1, i);
      if i >= 1 { AlphaMasked(y, lab, blank, classes, t - 1, i - 1); }
      if i >= 2 { AlphaMasked(y, lab, blank, classes, t - 1, i - 2); }
      SameCell(l, m, t, i);
    }
  }

  lemma {:induction false} WeightMasked(y: Table, blank: int, p: seq<int>)
    requires |y| >= 1 && 0 <= blank < |y[0]| && p != []
    ensures Weight(Masked(y, blank), p) == if p[0] == blank then 0.0 else Weight(y, p)
    decreases |p|
  {
    if |p| == 1 {
      assert p[..0] == [];
    } else {
      WeightMasked(y, blank, p[..|p| - 1]);
      assert ProbAt(Masked(y, blank), |p| - 1, p[|p| - 1]) == ProbAt(y, |p| - 1, p[|p| - 1]);
      Vanishes(ProbAt(y, |p| - 1, p[|p| - 1]));
    }
  }

  lemma Vanishes(x: real)
    ensures 0.0 * x == 0.0
  {
  }

  /** Total weight of the listed sequences that stand on one cell and do not begin with the blank. */
  function UnblankedSum(y: Table, ps: Paths, lab: seq<int>, blank: int, k: nat, onBlank: bool): real
    requires k <= |lab|
  {
    match ps
    case None => 0.0
    case Cons(p, rest) =>
      (if Spells(p, lab, blank, k, onBlank) && p[0] != blank then Weight(y, p) else 0.0)
      + UnblankedSum(y, rest, lab, blank, k, onBlank)
  }

  lemma {:induction false} SpellSumMasked(y: Table, ps: Paths, lab: seq<int>, blank: int, k: nat, onBlank: bool)
    requires |y| >= 1 && 0 <= blank < |y[0]| && k <= |lab|
    ensures SpellSum(Masked(y, blank), ps, lab, blank, k, onBlank) == UnblankedSum(y, ps, lab, blank, k, onBlank)
  {
    hide Masked, Collapse, Weight;
    if ps.Cons? {
      SpellSumMasked(y, ps.rest, lab, blank, k, onBlank);
      if ps.path != [] { WeightMasked(y, blank, ps.path); }
    }
  }

  /**
   A suppressed forward cell is the total weight of the sequences that stand on it and do not begin with the blank.
   */
  lemma SuppressedIsPathSum(y: Table, lab: seq<int>, blank: int, classes: nat, t: nat, k: nat, onBlank: bool)
    requires Problem(y, lab, blank, classes) && t < |y| && k <= |lab| && (k == 0 ==> onBlank)
    ensures LatticeOf(y, lab, blank, classes).Alpha(1, t, if onBlank then 2 * k else 2 * k - 1)
         == UnblankedSum(y, AllPaths(classes, t + 1), lab, blank, k, onBlank)
  {
    hide Masked, SpellSum, UnblankedSum, AllPaths;
    hide Lattice.Alpha;
    MaskedProblem(y, lab, blank, classes);
    AlphaMasked(y, lab, blank, classes, t, if onBlank then 2 * k else 2 * k - 1);
    AlphaIsPathSum(Masked(y, blank), lab, blank, classes, t, k, onBlank);
    SpellSumMasked(y, AllPaths(classes, t + 1), lab, blank, k, onBlank);
  }

  /** With both end blanks suppressed, a feasible label's beta loss is still the likelihood of the full tables. */
  lemma SuppressedBetaLoss(y: Table, lab: seq<int>, blank: int, classes: nat)
    requires Problem(y, lab, blank, classes) && Feasible(lab, |y|) && LatticeOf(y, lab, blank, classes).Alternates()
    ensures LatticeOf(y, lab, blank, classes).BetaLoss(Suppress(lab, |y|))
            == LatticeOf(y, lab, blank, classes).Likelihood(0)
  {
    hide Lattice.Alpha, Lattice.Beta, Lattice.BetaLoss, Lattice.Likelihood;
    SuppressionIsHarmless(y, lab, blank, classes);
    BetaLossIsLikelihood(LatticeOf(y, lab, blank, classes));
  }
}
