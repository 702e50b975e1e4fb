/**
 When a label fits into the input: its length plus its adjacent repeats, each of which needs
 a separating blank, must not exceed the number of time steps.
 */
module CtcFeasible {
  import opened CtcSpec
  import opened CtcPaths

  lemma {:induction false} RepeatsOfPrefix(s: seq<int>, c: int, k: nat)
    requires k <= |s|
    ensures Repeats(s + [c], k) == Repeats(s, k)
  {
    if k > 1 { RepeatsOfPrefix(s, c, k - 1); }
  }

  lemma {:induction false} RepeatsOfSlice(lab: seq<int>, k: nat, j: nat)
    requires j <= k <= |lab|
    ensures Repeats(lab[..k], j) == Repeats(lab, j)
  {
    if j > 1 { RepeatsOfSlice(lab, k, j - 1); }
  }

  /** A path is at least as long as what it collapses to, with room for a blank in every repeat. */
  lemma {:induction false} NeedsRoom(p: seq<int>, blank: int)
    ensures var s := Collapse(p, blank);
            |s| + Repeats(s, |s|) + (if p != [] && p[|p| - 1] == blank then 1 else 0) <= |p|
  {
    if p != [] {
      var q, c := p[..|p| - 1], p[|p| - 1];
      var s := Collapse(q, blank);
      NeedsRoom(q, blank);
      assert p == q + [c];
      CollapseSnoc(q, c, blank);
      RepeatsOfPrefix(s, c, |s|);
      if q != [] { CollapseLast(q, blank); }
    }
  }

  /** The shortest path that spells the first `k` entries. */
  function Shortest(lab: seq<int>, blank: int, k: nat): seq<int>
    requires k <= |lab|
  {
    if k == 0 then []
    else Shortest(lab, blank, k - 1)
         + (if k >= 2 && lab[k - 1] == lab[k - 2] then [blank] else []) + [lab[k - 1]]
  }

  lemma CollapseNothing(blank: int)
    ensures Collapse([], blank) == []
  {
  }

  lemma {:induction false} ShortestSpells(lab: seq<int>, blank: int, classes: nat, k: nat)
    requires ValidLabel(lab, classes, blank) && k <= |lab|
    ensures var p := Shortest(lab, blank, k);
            && IsPath(p, classes, k + Repeats(lab, k))
            && Collapse(p, blank) == lab[..k]
            && (k >= 1 ==> p != [] && p[|p| - 1] == lab[k - 1])
  {
    hide Collapse;
    CollapseNothing(blank);
    if k >= 1 {
      ShortestSpells(lab, blank, classes, k - 1);
      var p := Shortest(lab, blank, k - 1);
      CollapseSnoc(p, blank, blank);
      assert lab[..k] == lab[..k - 1] + [lab[k - 1]];
      if k >= 2 && lab[k - 1] == lab[k - 2] {
        CollapseSnoc(p + [blank], lab[k - 1], blank);
      } else {
        assert p + [] == p;
        CollapseSnoc(p, lab[k - 1], blank);
      }
    }
  }

  lemma {:induction false} PadWithBlanks(p: seq<int>, blank: int, classes: nat, n: nat) returns (q: seq<int>)
    requires 0 <= blank < classes && |p| <= n && IsPath(p, classes, |p|)
    ensures IsPath(q, classes, n) && Collapse(q, blank) == Collapse(p, blank)
    decreases n - |p|
  {
    if |p| == n {
      q := p;
    } else {
      CollapseSnoc(p, blank, blank);
      q := PadWithBlanks(p + [blank], blank, classes, n);
    }
  }

  /** The length check accepts exactly the labels that some input of that length can spell. */
  lemma FeasibleIffSpellable(lab: seq<int>, blank: int, classes: nat, n: nat)
    requires ValidLabel(lab, classes, blank)
    ensures Feasible(lab, n) <==> exists p :: IsPath(p, classes, n) && Collapse(p, blank) == lab
  {
    assert lab[..|lab|] == lab;
    if Feasible(lab, n) {
      ShortestSpells(lab, blank, classes, |lab|);
      var q := PadWithBlanks(Shortest(lab, blank, |lab|), blank, classes, n);
      assert IsPath(q, classes, n) && Collapse(q, blank) == lab;
    }
    if p :| IsPath(p, classes, n) && Collapse(p, blank) == lab {
      NeedsRoom(p, blank);
    }
  }

  lemma {:induction false} WeightPositive(y: Table, classes: nat, p: seq<int>)
    requires IsTable(y, |y|, classes) && Positive(y) && |p| <= |y| && IsPath(p, classes, |p|)
    ensures Weight(y, p) > 0.0
  {
    if p != [] { WeightPositive(y, classes, p[..|p| - 1]); }
  }

  lemma {:induction false} CollapseSumBounds(y: Table, classes: nat, ps: Paths, lab: seq<int>, blank: int, n: nat,
                                             q: seq<int>)
    requires IsTable(y, |y|, classes) && Positive(y) && n <= |y| && ArePaths(ps, classes, n)
    ensures CollapseSum(y, ps, lab, blank) >= 0.0
    ensures Occurrences(ps, q) > 0 && Collapse(q, blank) == lab ==> CollapseSum(y, ps, lab, blank) > 0.0
  {
    hide Collapse, Weight;
    if ps.Cons? {
      WeightPositive(y, classes, ps.path);
      CollapseSumBounds(y, classes, ps.rest, lab, blank, n, q);
    }
  }

  lemma {:induction false} CollapseSumEmpty(y: Table, classes: nat, ps: Paths, lab: seq<int>, blank: int, n: nat)
    requires ArePaths(ps, classes, n)
    requires forall p :: IsPath(p, classes, n) ==> Collapse(p, blank) != lab
    ensures CollapseSum(y, ps, lab, blank) == 0.0
  {
    if ps.Cons? { CollapseSumEmpty(y, classes, ps.rest, lab, blank, n); }
  }

  /** With positive probabilities the likelihood is positive exactly for feasible labels. */
  lemma LikelihoodPositive(y: Table, lab: seq<int>, blank: int, classes: nat)
    requires |y| >= 1 && IsTable(y, |y|, classes) && ValidLabel(lab, classes, blank)
    ensures LatticeOf(y, lab, blank, classes).Valid()
    ensures !Feasible(lab, |y|) ==> LatticeOf(y, lab, blank, classes).Likelihood(0) == 0.0
    ensures Positive(y) ==>
              (LatticeOf(y, lab, blank, classes).Likelihood(0) > 0.0 <==> Feasible(lab, |y|))
  {
    hide Collapse, CollapseSum, AllPaths, Feasible, LabelPrime;
    hide Lattice.Alpha;
    var n := |y|;
    LikelihoodIsPathSum(y, lab, blank, classes);
    FeasibleIffSpellable(lab, blank, classes, n);
    AllPathsArePaths(classes, n);
    if Feasible(lab, n) {
      var q :| IsPath(q, classes, n) && Collapse(q, blank) == lab;
      AllPathsOnce(classes, n, q);
      if Positive(y) { CollapseSumBounds(y, classes, AllPaths(classes, n), lab, blank, n, q); }
    } else {
      CollapseSumEmpty(y, classes, AllPaths(classes, n), lab, blank, n);
    }
  }
}
