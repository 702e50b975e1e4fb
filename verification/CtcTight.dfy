/**
 The emulator starts on the first class instead of the leading blank, and ends on the last
 class instead of the trailing blank, when the label takes up all the time steps.  Its tables
 then differ from the reference ones, yet everything computed from them is the same.

 Cells are told by the number `k` of label entries spelt: cell `2 * k` is the blank after
 them, cell `2 * k - 1` the last of them.
 */
module CtcTight {
  import opened CtcSpec
  import opened CtcGradient

  /** 1 when the label leaves no time step to spare. */
  function Suppress(lab: seq<int>, steps: nat): nat {
    if |lab| + Repeats(lab, |lab|) < steps then 0 else 1
  }

  function Cell(k: nat, onBlank: bool): nat
    requires k == 0 ==> onBlank
  {
    if onBlank then 2 * k else 2 * k - 1
  }

  /** Fewest symbols up to and including a cell. */
  function StepsTo(lab: seq<int>, k: nat, onBlank: bool): int
    requires k <= |lab|
  {
    k + Repeats(lab, k) + (if onBlank then 1 else 0)
  }

  /** Fewest symbols from a cell on. */
  function StepsFrom(lab: seq<int>, k: nat, onBlank: bool): int
    requires k <= |lab|
  {
    |lab| - k + 1 + Repeats(lab, |lab|) - Repeats(lab, if onBlank && k < |lab| then k + 1 else k)
  }

  ghost predicate Problem(y: Table, lab: seq<int>, blank: int, classes: nat) {
    && |y| >= 1 && IsTable(y, |y|, classes) && ValidLabel(lab, classes, blank)
    && LatticeOf(y, lab, blank, classes).Valid()
  }

  // ---- The two recurrences by label entries ----

  lemma AlphaCell(y: Table, lab: seq<int>, blank: int, classes: nat, first: nat, t: nat, k: nat, onBlank: bool)
    requires Problem(y, lab, blank, classes) && t < |y| && k <= |lab| && (k == 0 ==> onBlank)
    ensures var l := LatticeOf(y, lab, blank, classes);
            l.AlphaIn(first, t, Cell(k, onBlank)) ==
              if t == 0 then (if (onBlank && k == 0 && first == 0) || (!onBlank && k == 1 && first <= 1) then 1.0
                              else 0.0)
              else l.Alpha(first, t - 1, Cell(k, onBlank))
                   + (if k == 0 then 0.0
                      else if onBlank then l.Alpha(first, t - 1, Cell(k, false))
                      else l.Alpha(first, t - 1, Cell(k - 1, true)))
                   + (if !onBlank && k >= 2 && lab[k - 1] != lab[k - 2]
                      then l.Alpha(first, t - 1, Cell(k - 1, false)) else 0.0)
  {
    hide LabelPrime;
    hide Lattice.Alpha;
    LabelPrimeCells(lab, blank, k);
    if k >= 1 { LabelPrimeCells(lab, blank, k - 1); }
  }

  lemma BetaCell(y: Table, lab: seq<int>, blank: int, classes: nat, last: nat, t: nat, k: nat, onBlank: bool)
    requires Problem(y, lab, blank, classes) && t < |y| && k <= |lab| && (k == 0 ==> onBlank)
    ensures var l := LatticeOf(y, lab, blank, classes);
            l.BetaOut(last, t, Cell(k, onBlank)) ==
              if t == |y| - 1 then (if k == |lab| && (if onBlank then last == 0 else last <= 1) then 1.0 else 0.0)
              else l.Beta(last, t + 1, Cell(k, onBlank))
                   + (if !onBlank then l.Beta(last, t + 1, Cell(k, true))
                      else if k < |lab| then l.Beta(last, t + 1, Cell(k + 1, false))
                      else 0.0)
                   + (if !onBlank && k < |lab| && lab[k] != lab[k - 1]
                      then l.Beta(last, t + 1, Cell(k + 1, false)) else 0.0)
  {
    hide LabelPrime;
    hide Lattice.Beta;
    LabelPrimeCells(lab, blank, k);
    if k < |lab| { LabelPrimeCells(lab, blank, k + 1); }
  }

  // ---- Where the tables vanish, and where they agree ----

  lemma {:induction false} AlphaVanishes(y: Table, lab: seq<int>, blank: int, classes: nat, first: nat, t: nat, k: nat,
                                         onBlank: bool)
    requires Problem(y, lab, blank, classes) && t < |y| && k <= |lab| && (k == 0 ==> onBlank)
    requires t + 1 < StepsTo(lab, k, onBlank)
    ensures LatticeOf(y, lab, blank, classes).Alpha(first, t, Cell(k, onBlank)) == 0.0
    decreases t
  {
    hide Lattice.AlphaIn, Problem, LatticeOf;
    AlphaCell(y, lab, blank, classes, first, t, k, onBlank);
    if t > 0 {
      AlphaVanishes(y, lab, blank, classes, first, t - 1, k, onBlank);
      if k > 0 && onBlank { AlphaVanishes(y, lab, blank, classes, first, t - 1, k, false); }
      if k > 0 && !onBlank { AlphaVanishes(y, lab, blank, classes, first, t - 1, k - 1, true); }
      if k >= 2 && !onBlank && lab[k - 1] != lab[k - 2] {
        AlphaVanishes(y, lab, blank, classes, first, t - 1, k - 1, false);
      }
    }
  }

  lemma {:induction false} AlphaAgrees(y: Table, lab: seq<int>, blank: int, classes: nat, t: nat, k: nat, onBlank: bool)
    requires Problem(y, lab, blank, classes) && t < |y| && 1 <= k <= |lab|
    requires t < StepsTo(lab, k, onBlank)
    ensures var l := LatticeOf(y, lab, blank, classes);
            l.Alpha(0, t, Cell(k, onBlank)) == l.Alpha(1, t, Cell(k, onBlank))
    decreases t
  {
    hide Lattice.AlphaIn, Problem, LatticeOf;
    AlphaCell(y, lab, blank, classes, 0, t, k, onBlank);
    AlphaCell(y, lab, blank, classes, 1, t, k, onBlank);
    if t > 0 {
      AlphaAgrees(y, lab, blank, classes, t - 1, k, onBlank);
      if onBlank { AlphaAgrees(y, lab, blank, classes, t - 1, k, false); }
      if k >= 2 && !onBlank { AlphaAgrees(y, lab, blank, classes, t - 1, k - 1, true); }
      if k >= 2 && !onBlank && lab[k - 1] != lab[k - 2] {
        AlphaAgrees(y, lab, blank, classes, t - 1, k - 1, false);
      }
    }
  }

  lemma {:induction false} BetaVanishes(y: Table, lab: seq<int>, blank: int, classes: nat, last: nat, t: nat, k: nat,
                                        onBlank: bool)
    requires Problem(y, lab, blank, classes) && t < |y| && k <= |lab| && (k == 0 ==> onBlank)
    requires |y| - t < StepsFrom(lab, k, onBlank)
    ensures LatticeOf(y, lab, blank, classes).Beta(last, t, Cell(k, onBlank)) == 0.0
    decreases |y| - t
  {
    hide Lattice.BetaOut, Problem, LatticeOf;
    BetaCell(y, lab, blank, classes, last, t, k, onBlank);
    if t + 1 < |y| {
      BetaVanishes(y, lab, blank, classes, last, t + 1, k, onBlank);
      if !onBlank { BetaVanishes(y, lab, blank, classes, last, t + 1, k, true); }
      if onBlank && k < |lab| { BetaVanishes(y, lab, blank, classes, last, t + 1, k + 1, false); }
      if !onBlank && k < |lab| && lab[k] != lab[k - 1] {
        BetaVanishes(y, lab, blank, classes, last, t + 1, k + 1, false);
      }
    }
  }

  lemma {:induction false} BetaAgrees(y: Table, lab: seq<int>, blank: int, classes: nat, t: nat, k: nat, onBlank: bool)
    requires Problem(y, lab, blank, classes) && t < |y| && k <= |lab| && (k == 0 ==> onBlank)
    requires !(onBlank && k == |lab|) && |y| - t <= StepsFrom(lab, k, onBlank)
    ensures var l := LatticeOf(y, lab, blank, classes);
            l.Beta(0, t, Cell(k, onBlank)) == l.Beta(1, t, Cell(k, onBlank))
    decreases |y| - t
  {
    hide Lattice.BetaOut, Problem, LatticeOf;
    BetaCell(y, lab, blank, classes, 0, t, k, onBlank);
    BetaCell(y, lab, blank, classes, 1, t, k, onBlank);
    if t + 1 < |y| {
      BetaAgrees(y, lab, blank, classes, t + 1, k, onBlank);
      if !onBlank && k < |lab| { BetaAgrees(y, lab, blank, classes, t + 1, k, true); }
      if onBlank { BetaAgrees(y, lab, blank, classes, t + 1, k + 1, false); }
      if !onBlank && k < |lab| && lab[k] != lab[k - 1] {
        BetaAgrees(y, lab, blank, classes, t + 1, k + 1, false);
      }
    }
  }

  // ---- What the suppression leaves unchanged ----

  /** Cell by cell the product alpha * beta is the same, although neither factor is. */
  lemma CellProductsAgree(y: Table, lab: seq<int>, blank: int, classes: nat, t: nat, i: nat)
    requires Problem(y, lab, blank, classes) && t < |y| && i <= 2 * |lab|
    requires |lab| + Repeats(lab, |lab|) == |y|
    ensures var l := LatticeOf(y, lab, blank, classes);
            l.Alpha(0, t, i) * l.Beta(0, t, i) == l.Alpha(1, t, i) * l.Beta(1, t, i)
  {
    hide Lattice.Alpha, Lattice.Beta, Problem, LatticeOf;
    var k, onBlank := (i + 1) / 2, i % 2 == 0;
    assert i == Cell(k, onBlank);
    if k == 0 {
      BetaVanishes(y, lab, blank, classes, 0, t, 0, true);
      BetaVanishes(y, lab, blank, classes, 1, t, 0, true);
    } else if onBlank && k == |lab| {
      AlphaVanishes(y, lab, blank, classes, 0, t, k, true);
      AlphaVanishes(y, lab, blank, classes, 1, t, k, true);
    } else if t >= StepsTo(lab, k, onBlank) {
      BetaVanishes(y, lab, blank, classes, 0, t, k, onBlank);
      BetaVanishes(y, lab, blank, classes, 1, t, k, onBlank);
    } else if |y| - t > StepsFrom(lab, k, onBlank) {
      AlphaVanishes(y, lab, blank, classes, 0, t, k, onBlank);
      AlphaVanishes(y, lab, blank, classes, 1, t, k, onBlank);
    } else {
      AlphaAgrees(y, lab, blank, classes, t, k, onBlank);
      BetaAgrees(y, lab, blank, classes, t, k, onBlank);
    }
  }

  lemma {:induction false} ClassMassAgrees(y: Table, lab: seq<int>, blank: int, classes: nat, t: nat, c: int, n: nat)
    requires Problem(y, lab, blank, classes) && t < |y| && n <= 2 * |lab| + 1
    requires |lab| + Repeats(lab, |lab|) == |y|
    ensures var l := LatticeOf(y, lab, blank, classes);
            l.ClassMass(0, 0, t, c, n) == l.ClassMass(1, 1, t, c, n)
  {
    hide Lattice.Alpha, Lattice.Beta;
    if n > 0 {
      ClassMassAgrees(y, lab, blank, classes, t, c, n - 1);
      CellProductsAgree(y, lab, blank, classes, t, n - 1);
    }
  }

  /** For a feasible label, suppression changes neither loss, nor beta loss, nor class masses. */
  lemma SuppressionIsHarmless(y: Table, lab: seq<int>, blank: int, classes: nat)
    requires Problem(y, lab, blank, classes) && Feasible(lab, |y|)
    ensures var l, s := LatticeOf(y, lab, blank, classes), Suppress(lab, |y|);
            && l.Likelihood(s) == l.Likelihood(0)
            && l.BetaLoss(s) == l.BetaLoss(0)
            && forall t, c :: 0 <= t < |y| ==> l.ClassMass(s, s, t, c, |l.lp|) == l.ClassMass(0, 0, t, c, |l.lp|)
  {
    hide Lattice.Alpha, Lattice.Beta, Lattice.ClassMass;
    if Suppress(lab, |y|) == 1 {
      var k, e := |lab|, |y| - 1;
      AlphaVanishes(y, lab, blank, classes, 0, e, k, true);
      AlphaVanishes(y, lab, blank, classes, 1, e, k, true);
      AlphaAgrees(y, lab, blank, classes, e, k, false);
      BetaVanishes(y, lab, blank, classes, 0, 0, 0, true);
      BetaVanishes(y, lab, blank, classes, 1, 0, 0, true);
      BetaAgrees(y, lab, blank, classes, 0, 1, false);
      forall t: nat, c | t < |y|
        ensures var l := LatticeOf(y, lab, blank, classes);
                l.ClassMass(1, 1, t, c, |l.lp|) == l.ClassMass(0, 0, t, c, |l.lp|)
      {
        ClassMassAgrees(y, lab, blank, classes, t, c, 2 * |lab| + 1);
      }
    }
  }

  /** The tables themselves do change: with one class and one step the leading blank cell differs. */
  lemma TablesDiffer()
    ensures var y, lab := [[0.5, 0.5]], [1];
            && Problem(y, lab, 0, 2) && Suppress(lab, |y|) == 1 && Feasible(lab, |y|)
            && LatticeOf(y, lab, 0, 2).Alpha(0, 0, 0) != LatticeOf(y, lab, 0, 2).Alpha(1, 0, 0)
  {
    var y, lab := [[0.5, 0.5]], [1];
    LatticeOfValid(y, lab, 0, 2);
    LabelPrimeCells(lab, 0, 0);
  }
}
