/**
 The meaning of the forward recurrence: brute force over all class sequences.  A sequence
 collapses by merging adjacent repeats and then dropping blanks; the likelihood is the sum of
 the probabilities of the sequences that collapse to the label.
 */
module CtcPaths {
  import opened CtcSpec

  function MergeRepeats(p: seq<int>): seq<int> {
    if |p| <= 1 then p
    else
      var rest := MergeRepeats(p[..|p| - 1]);
      if p[|p| - 1] == p[|p| - 2] then rest else rest + [p[|p| - 1]]
  }

  function DropBlanks(p: seq<int>, blank: int): seq<int> {
    if p == [] then []
    else DropBlanks(p[..|p| - 1], blank) + (if p[|p| - 1] == blank then [] else [p[|p| - 1]])
  }

  function Collapse(p: seq<int>, blank: int): seq<int> {
    DropBlanks(MergeRepeats(p), blank)
  }

  datatype Paths = None | Cons(path: seq<int>, rest: Paths)

  function Append(ps: Paths, qs: Paths): Paths {
    match ps
    case None => qs
    case Cons(p, rest) => Cons(p, Append(rest, qs))
  }

  /** Every sequence of length `n` over the classes, see AllPathsOnce. */
  function AllPaths(classes: nat, n: nat): Paths {
    if n == 0 then Cons([], None) else ExtendAll(AllPaths(classes, n - 1), classes)
  }

  function ExtendAll(ps: Paths, classes: nat): Paths {
    match ps
    case None => None
    case Cons(p, rest) => Append(Extensions(p, classes), ExtendAll(rest, classes))
  }

  function Extensions(p: seq<int>, classes: nat): Paths {
    if classes == 0 then None else Cons(p + [classes - 1], Extensions(p, classes - 1))
  }

  ghost predicate IsPath(p: seq<int>, classes: nat, n: nat) {
    |p| == n && forall i :: 0 <= i < |p| ==> 0 <= p[i] < classes
  }

  ghost predicate ArePaths(ps: Paths, classes: nat, n: nat) {
    ps.Cons? ==> IsPath(ps.path, classes, n) && ArePaths(ps.rest, classes, n)
  }

  function Occurrences(ps: Paths, q: seq<int>): nat {
    match ps
    case None => 0
    case Cons(p, rest) => (if p == q then 1 else 0) + Occurrences(rest, q)
  }

  /** Probability of a class at a step; a class outside the table has none. */
  function ProbAt(y: Table, t: nat, c: int): real {
    if t < |y| && 0 <= c < |y[t]| then y[t][c] else 0.0
  }

  /** Product of the probabilities along a sequence of classes. */
  function Weight(y: Table, p: seq<int>): real {
    if p == [] then 1.0 else Weight(y, p[..|p| - 1]) * ProbAt(y, |p| - 1, p[|p| - 1])
  }

  /** Total weight of the listed sequences that collapse to the label. */
  function CollapseSum(y: Table, ps: Paths, lab: seq<int>, blank: int): real {
    match ps
    case None => 0.0
    case Cons(p, rest) =>
      (if Collapse(p, blank) == lab then Weight(y, p) else 0.0) + CollapseSum(y, rest, lab, blank)
  }

  // ---- The list of all paths ----

  lemma {:induction false} AppendOccurrences(ps: Paths, qs: Paths, q: seq<int>)
    ensures Occurrences(Append(ps, qs), q) == Occurrences(ps, q) + Occurrences(qs, q)
  {
    if ps.Cons? { AppendOccurrences(ps.rest, qs, q); }
  }

  lemma {:induction false} ExtensionsOnce(p: seq<int>, classes: nat, q: seq<int>)
    ensures Occurrences(Extensions(p, classes), q)
         == if |q| == |p| + 1 && q[..|p|] == p && 0 <= q[|p|] < classes then 1 else 0
  {
    if classes > 0 {
      ExtensionsOnce(p, classes - 1, q);
      if |q| == |p| + 1 && q[..|p|] == p { assert q == p + [q[|p|]]; }
    }
  }

  lemma {:induction false} ExtendAllOccurrences(ps: Paths, classes: nat, n: nat, q: seq<int>)
    requires ArePaths(ps, classes, n)
    ensures Occurrences(ExtendAll(ps, classes), q)
         == if |q| == n + 1 && 0 <= q[n] < classes then Occurrences(ps, q[..n]) else 0
  {
    if ps.Cons? {
      AppendOccurrences(Extensions(ps.path, classes), ExtendAll(ps.rest, classes), q);
      ExtensionsOnce(ps.path, classes, q);
      ExtendAllOccurrences(ps.rest, classes, n, q);
    }
  }

  /** The enumeration lists each class sequence of length `n` exactly once and nothing else. */
  lemma {:induction false} AllPathsOnce(classes: nat, n: nat, q: seq<int>)
    ensures Occurrences(AllPaths(classes, n), q) == if IsPath(q, classes, n) then 1 else 0
  {
    if n > 0 {
      AllPathsArePaths(classes, n - 1);
      ExtendAllOccurrences(AllPaths(classes, n - 1), classes, n - 1, q);
      if |q| == n {
        AllPathsOnce(classes, n - 1, q[..n - 1]);
        assert q == q[..n - 1] + [q[n - 1]];
      }
    }
  }

  lemma {:induction false} AppendArePaths(ps: Paths, qs: Paths, classes: nat, n: nat)
    requires ArePaths(ps, classes, n) && ArePaths(qs, classes, n)
    ensures ArePaths(Append(ps, qs), classes, n)
  {
    if ps.Cons? { AppendArePaths(ps.rest, qs, classes, n); }
  }

  lemma {:induction false} ExtensionsArePaths(p: seq<int>, some: nat, classes: nat, n: nat)
    requires IsPath(p, classes, n) && some <= classes
    ensures ArePaths(Extensions(p, some), classes, n + 1)
  {
    if some > 0 { ExtensionsArePaths(p, some - 1, classes, n); }
  }

  lemma {:induction false} ExtendAllArePaths(ps: Paths, classes: nat, n: nat)
    requires ArePaths(ps, classes, n)
    ensures ArePaths(ExtendAll(ps, classes), classes, n + 1)
  {
    if ps.Cons? {
      ExtensionsArePaths(ps.path, classes, classes, n);
      ExtendAllArePaths(ps.rest, classes, n);
      AppendArePaths(Extensions(ps.path, classes), ExtendAll(ps.rest, classes), classes, n + 1);
    }
  }

  lemma {:induction false} AllPathsArePaths(classes: nat, n: nat)
    ensures ArePaths(AllPaths(classes, n), classes, n)
  {
    if n > 0 {
      AllPathsArePaths(classes, n - 1);
      ExtendAllArePaths(AllPaths(classes, n - 1), classes, n - 1);
    }
  }

  lemma {:induction false} AppendNone(ps: Paths)
    ensures Append(ps, None) == ps
  {
    if ps.Cons? { AppendNone(ps.rest); }
  }

  // ---- Collapsing one more symbol ----

  lemma CollapseSnoc(p: seq<int>, c: int, blank: int)
    ensures Collapse(p + [c], blank)
         == if c == blank || (p != [] && p[|p| - 1] == c) then Collapse(p, blank)
            else Collapse(p, blank) + [c]
  {
    assert (p + [c])[..|p|] == p;
    if p == [] {
      assert MergeRepeats([c]) == [c] && [c][..0] == [];
    } else if p[|p| - 1] != c {
      var m := MergeRepeats(p);
      assert MergeRepeats(p + [c]) == m + [c];
      assert (m + [c])[..|m|] == m;
    }
  }

  lemma {:induction false} CollapseLast(p: seq<int>, blank: int)
    requires p != []
    ensures p[|p| - 1] != blank ==>
              Collapse(p, blank) != [] && Collapse(p, blank)[|Collapse(p, blank)| - 1] == p[|p| - 1]
  {
    var q := p[..|p| - 1];
    assert p == q + [p[|p| - 1]];
    CollapseSnoc(q, p[|p| - 1], blank);
    if q != [] && q[|q| - 1] == p[|p| - 1] { CollapseLast(q, blank); }
  }

  // ---- Lattice cell of a path ----

  /**
   The path has spelt the first `k` label entries, and ends on a blank or on the last of them:
   it stands on cell `2 * k` or `2 * k - 1` of the extended label.
   */
  predicate Spells(p: seq<int>, lab: seq<int>, blank: int, k: nat, onBlank: bool)
    requires k <= |lab|
  {
    p != [] && Collapse(p, blank) == lab[..k] && (p[|p| - 1] == blank <==> onBlank)
  }

  lemma SpellsOneSymbol(c: int, lab: seq<int>, blank: int, k: nat, onBlank: bool)
    requires k <= |lab| && blank !in lab
    ensures Spells([c], lab, blank, k, onBlank)
       <==> if onBlank then k == 0 && c == blank else k == 1 && c == lab[0]
  {
    CollapseSnoc([], c, blank);
    assert [] + [c] == [c];
    if k == 1 { assert lab[..1] == [lab[0]]; }
    assert |Collapse([c], blank)| == if c == blank then 0 else 1;
  }

  lemma StepToBlank(p: seq<int>, c: int, lab: seq<int>, blank: int, k: nat)
    requires k <= |lab| && p != []
    ensures Spells(p + [c], lab, blank, k, true)
       <==> c == blank && (Spells(p, lab, blank, k, true) || Spells(p, lab, blank, k, false))
  {
    CollapseSnoc(p, c, blank);
  }

  /** The class cell is reached from itself, the blank before it, or the class before that if it differs. */
  lemma StepToClass(p: seq<int>, c: int, lab: seq<int>, blank: int, k: nat)
    requires 1 <= k <= |lab| && p != [] && blank !in lab
    ensures Spells(p + [c], lab, blank, k, false)
       <==> c == lab[k - 1]
            && (|| Spells(p, lab, blank, k, false)
                || Spells(p, lab, blank, k - 1, true)
                || (k >= 2 && lab[k - 1] != lab[k - 2] && Spells(p, lab, blank, k - 1, false)))
  {
    var s := Collapse(p, blank);
    CollapseSnoc(p, c, blank);
    CollapseLast(p, blank);
    assert lab[..k] == lab[..k - 1] + [lab[k - 1]];
    assert lab[k - 1] in lab;
    if c != blank && p[|p| - 1] != c {
      assert (s + [c])[..|s|] == s;
      assert s + [c] == lab[..k] <==> s == lab[..k - 1] && c == lab[k - 1];
      if k >= 2 && s == lab[..k - 1] { assert s[|s| - 1] == lab[k - 2]; }
    } else if c != blank {
      assert s == lab[..k] ==> s[|s| - 1] == lab[k - 1];
      if k >= 2 && s == lab[..k - 1] { assert s[|s| - 1] == lab[k - 2]; }
    }
  }

  lemma NothingOnClassZero(p: seq<int>, lab: seq<int>, blank: int)
    ensures !Spells(p, lab, blank, 0, false)
  {
    if p != [] { CollapseLast(p, blank); }
  }

  // ---- Sums over paths ----

  /** Total weight of the listed sequences that stand on one cell. */
  function SpellSum(y: Table, ps: Paths, lab: seq<int>, blank: int, k: nat, onBlank: bool): real
    requires k <= |lab|
  {
    match ps
    case None => 0.0
    case Cons(p, rest) => SpellTerm(y, p, lab, blank, k, onBlank) + SpellSum(y, rest, lab, blank, k, onBlank)
  }

  function SpellTerm(y: Table, p: seq<int>, lab: seq<int>, blank: int, k: nat, onBlank: bool): real
    requires k <= |lab|
  {
    if Spells(p, lab, blank, k, onBlank) then Weight(y, p) else 0.0
  }

  lemma WeightSnoc(y: Table, p: seq<int>, c: int)
    ensures Weight(y, p + [c]) == Weight(y, p) * ProbAt(y, |p|, c)
  {
    assert (p + [c])[..|p|] == p;
  }

  lemma {:induction false} SpellSumAppend(y: Table, ps: Paths, qs: Paths,
                                         lab: seq<int>, blank: int, k: nat, onBlank: bool)
    requires k <= |lab|
    ensures SpellSum(y, Append(ps, qs), lab, blank, k, onBlank)
         == SpellSum(y, ps, lab, blank, k, onBlank) + SpellSum(y, qs, lab, blank, k, onBlank)
  {
    if ps.Cons? { SpellSumAppend(y, ps.rest, qs, lab, blank, k, onBlank); }
  }

  function CellClass(lab: seq<int>, blank: int, k: nat, onBlank: bool): int
    requires k <= |lab| && (k == 0 ==> onBlank)
  {
    if onBlank then blank else lab[k - 1]
  }

  lemma SpellsEndsOn(p: seq<int>, lab: seq<int>, blank: int, k: nat, onBlank: bool)
    requires k <= |lab| && (k == 0 ==> onBlank) && Spells(p, lab, blank, k, onBlank)
    ensures p[|p| - 1] == CellClass(lab, blank, k, onBlank)
  {
    CollapseLast(p, blank);
  }

  /** Of the extensions of one path only the one by the class of the cell can stand there. */
  lemma {:induction false} ExtensionsSum(y: Table, p: seq<int>, lab: seq<int>, blank: int,
                                        some: nat, k: nat, onBlank: bool)
    requires k <= |lab| && (k == 0 ==> onBlank)
    ensures SpellSum(y, Extensions(p, some), lab, blank, k, onBlank)
         == (var c := CellClass(lab, blank, k, onBlank);
             if 0 <= c < some && Spells(p + [c], lab, blank, k, onBlank)
             then Weight(y, p) * ProbAt(y, |p|, c) else 0.0)
  {
    hide Collapse, Weight, ProbAt;
    if some > 0 {
      ExtensionsSum(y, p, lab, blank, some - 1, k, onBlank);
      var q := p + [some - 1];
      WeightSnoc(y, p, some - 1);
      if Spells(q, lab, blank, k, onBlank) { SpellsEndsOn(q, lab, blank, k, onBlank); }
    }
  }

  lemma ExtendOneToBlank(y: Table, p: seq<int>, lab: seq<int>, blank: int, classes: nat, k: nat)
    requires k <= |lab| && 0 <= blank < classes && p != []
    ensures SpellSum(y, Extensions(p, classes), lab, blank, k, true)
         == (SpellTerm(y, p, lab, blank, k, true) + SpellTerm(y, p, lab, blank, k, false)) * ProbAt(y, |p|, blank)
  {
    hide Collapse, Weight, ProbAt, SpellSum, Extensions;
    ExtensionsSum(y, p, lab, blank, classes, k, true);
    StepToBlank(p, blank, lab, blank, k);
  }

  lemma {:induction false} ExtendAllToBlank(y: Table, ps: Paths, lab: seq<int>, blank: int,
                                           classes: nat, n: nat, k: nat)
    requires k <= |lab| && 0 <= blank < classes && n >= 1 && ArePaths(ps, classes, n)
    ensures SpellSum(y, ExtendAll(ps, classes), lab, blank, k, true)
         == (SpellSum(y, ps, lab, blank, k, true) + SpellSum(y, ps, lab, blank, k, false))
            * ProbAt(y, n, blank)
  {
    hide Collapse, Weight, ProbAt, Spells, SpellTerm, Extensions, Append;
    if ps.Cons? {
      var p, rest := ps.path, ps.rest;
      SpellSumAppend(y, Extensions(p, classes), ExtendAll(rest, classes), lab, blank, k, true);
      ExtendOneToBlank(y, p, lab, blank, classes, k);
      ExtendAllToBlank(y, rest, lab, blank, classes, n, k);
      Combine(SpellTerm(y, p, lab, blank, k, true) + SpellTerm(y, p, lab, blank, k, false),
              SpellSum(y, rest, lab, blank, k, true) + SpellSum(y, rest, lab, blank, k, false), ProbAt(y, n, blank),
              SpellSum(y, ps, lab, blank, k, true) + SpellSum(y, ps, lab, blank, k, false));
    }
  }

  lemma Combine(a: real, b: real, q: real, sum: real)
    requires sum == a + b
    ensures sum * q == a * q + b * q
  {
  }

  predicate Advances(lab: seq<int>, k: nat)
    requires k <= |lab|
  {
    k >= 2 && lab[k - 1] != lab[k - 2]
  }

  /** Weight of the listed sequences from which a class cell is reached. */
  function ClassInflow(y: Table, ps: Paths, lab: seq<int>, blank: int, k: nat): real
    requires 1 <= k <= |lab|
  {
    SpellSum(y, ps, lab, blank, k, false) + SpellSum(y, ps, lab, blank, k - 1, true)
    + (if Advances(lab, k) then SpellSum(y, ps, lab, blank, k - 1, false) else 0.0)
  }

  lemma SpellSumOne(y: Table, p: seq<int>, lab: seq<int>, blank: int, k: nat, onBlank: bool)
    requires k <= |lab|
    ensures SpellSum(y, Cons(p, None), lab, blank, k, onBlank) == SpellTerm(y, p, lab, blank, k, onBlank)
  {
    assert SpellSum(y, None, lab, blank, k, onBlank) == 0.0;
  }

  lemma ClassInflowOne(y: Table, p: seq<int>, lab: seq<int>, blank: int, k: nat)
    requires 1 <= k <= |lab|
    ensures ClassInflow(y, Cons(p, None), lab, blank, k)
         == SpellTerm(y, p, lab, blank, k, false) + SpellTerm(y, p, lab, blank, k - 1, true)
            + (if Advances(lab, k) then SpellTerm(y, p, lab, blank, k - 1, false) else 0.0)
  {
    hide SpellTerm, SpellSum;
    SpellSumOne(y, p, lab, blank, k, false);
    SpellSumOne(y, p, lab, blank, k - 1, true);
    SpellSumOne(y, p, lab, blank, k - 1, false);
  }

  lemma ClassInflowCons(y: Table, p: seq<int>, rest: Paths, lab: seq<int>, blank: int, k: nat)
    requires 1 <= k <= |lab|
    ensures ClassInflow(y, Cons(p, rest), lab, blank, k)
         == ClassInflow(y, Cons(p, None), lab, blank, k) + ClassInflow(y, rest, lab, blank, k)
  {
    hide SpellTerm;
    ClassInflowOne(y, p, lab, blank, k);
  }

  lemma ExtendOneToClass(y: Table, p: seq<int>, lab: seq<int>, blank: int, classes: nat, k: nat)
    requires 1 <= k <= |lab| && ValidLabel(lab, classes, blank) && p != []
    ensures SpellSum(y, Extensions(p, classes), lab, blank, k, false)
         == ClassInflow(y, Cons(p, None), lab, blank, k) * ProbAt(y, |p|, lab[k - 1])
  {
    hide Collapse, Weight, ProbAt, Extensions, SpellSum, ClassInflow;
    ClassInflowOne(y, p, lab, blank, k);
    ExtensionsSum(y, p, lab, blank, classes, k, false);
    StepToClass(p, lab[k - 1], lab, blank, k);
    OneSource(p, lab, blank, k);
  }

  lemma {:induction false} ExtendAllToClass(y: Table, ps: Paths, lab: seq<int>, blank: int,
                                           classes: nat, n: nat, k: nat)
    requires 1 <= k <= |lab| && ValidLabel(lab, classes, blank) && n >= 1 && ArePaths(ps, classes, n)
    ensures SpellSum(y, ExtendAll(ps, classes), lab, blank, k, false)
         == ClassInflow(y, ps, lab, blank, k) * ProbAt(y, n, lab[k - 1])
  {
    hide ProbAt, SpellTerm, Extensions, Append, ValidLabel;
    if ps.Cons? {
      hide ClassInflow;
      var p, rest := ps.path, ps.rest;
      SpellSumAppend(y, Extensions(p, classes), ExtendAll(rest, classes), lab, blank, k, false);
      ExtendOneToClass(y, p, lab, blank, classes, k);
      ExtendAllToClass(y, rest, lab, blank, classes, n, k);
      ClassInflowCons(y, p, rest, lab, blank, k);
      Combine(ClassInflow(y, Cons(p, None), lab, blank, k), ClassInflow(y, rest, lab, blank, k),
              ProbAt(y, n, lab[k - 1]), ClassInflow(y, ps, lab, blank, k));
    }
  }

  /** The sources of a class cell are disjoint: a path stands on one of them at most. */
  lemma OneSource(p: seq<int>, lab: seq<int>, blank: int, k: nat)
    requires 1 <= k <= |lab|
    ensures !(Spells(p, lab, blank, k, false) && Spells(p, lab, blank, k - 1, true))
    ensures !(Spells(p, lab, blank, k, false) && Spells(p, lab, blank, k - 1, false))
  {
    if p != [] && Collapse(p, blank) == lab[..k] { assert |lab[..k]| != |lab[..k - 1]|; }
  }

  lemma OneSymbolSum(y: Table, lab: seq<int>, blank: int, classes: nat, k: nat, onBlank: bool)
    requires ValidLabel(lab, classes, blank) && k <= |lab| && (k == 0 ==> onBlank)
    ensures SpellSum(y, AllPaths(classes, 1), lab, blank, k, onBlank)
         == if (if onBlank then k == 0 else k == 1) then ProbAt(y, 0, CellClass(lab, blank, k, onBlank)) else 0.0
  {
    var c := CellClass(lab, blank, k, onBlank);
    assert AllPaths(classes, 0) == Cons([], None);
    assert ExtendAll(None, classes) == None;
    AppendNone(Extensions([], classes));
    assert AllPaths(classes, 1) == Extensions([], classes);
    ExtensionsSum(y, [], lab, blank, classes, k, onBlank);
    SpellsOneSymbol(c, lab, blank, k, onBlank);
    assert [] + [c] == [c];
  }

  /** The forward recurrence, told by the number of label entries spelt. */
  lemma BlankCell(y: Table, lab: seq<int>, blank: int, classes: nat, first: nat, t: nat, k: nat)
    requires IsTable(y, |y|, classes) && 1 <= t < |y| && ValidLabel(lab, classes, blank) && k <= |lab|
    requires LatticeOf(y, lab, blank, classes).Valid()
    ensures var l := LatticeOf(y, lab, blank, classes);
            l.Alpha(first, t, 2 * k)
              == (l.Alpha(first, t - 1, 2 * k) + if k >= 1 then l.Alpha(first, t - 1, 2 * k - 1) else 0.0)
                 * ProbAt(y, t, blank)
  {
    hide LabelPrime;
    LabelPrimeCells(lab, blank, k);
  }

  lemma ClassCell(y: Table, lab: seq<int>, blank: int, classes: nat, first: nat, t: nat, k: nat)
    requires IsTable(y, |y|, classes) && 1 <= t < |y| && ValidLabel(lab, classes, blank) && 1 <= k <= |lab|
    requires LatticeOf(y, lab, blank, classes).Valid()
    ensures var l := LatticeOf(y, lab, blank, classes);
            l.Alpha(first, t, 2 * k - 1)
              == (l.Alpha(first, t - 1, 2 * k - 1) + l.Alpha(first, t - 1, 2 * k - 2)
                  + if Advances(lab, k) then l.Alpha(first, t - 1, 2 * k - 3) else 0.0)
                 * ProbAt(y, t, lab[k - 1])
  {
    hide LabelPrime;
    LabelPrimeCells(lab, blank, k);
    LabelPrimeCells(lab, blank, k - 1);
  }

  lemma FirstCell(y: Table, lab: seq<int>, blank: int, classes: nat, k: nat, onBlank: bool)
    requires IsTable(y, |y|, classes) && |y| >= 1
    requires ValidLabel(lab, classes, blank) && k <= |lab| && (k == 0 ==> onBlank)
    requires LatticeOf(y, lab, blank, classes).Valid()
    ensures LatticeOf(y, lab, blank, classes).Alpha(0, 0, if onBlank then 2 * k else 2 * k - 1)
         == if (if onBlank then k == 0 else k == 1) then ProbAt(y, 0, CellClass(lab, blank, k, onBlank)) else 0.0
  {
    LabelPrimeCells(lab, blank, k);
  }

  /** A forward cell is the total weight of all class sequences that stand on it. */
  lemma {:induction false} AlphaIsPathSum(y: Table, lab: seq<int>, blank: int, classes: nat, t: nat, k: nat,
                                          onBlank: bool)
    requires IsTable(y, |y|, classes) && t < |y|
    requires ValidLabel(lab, classes, blank) && k <= |lab| && (k == 0 ==> onBlank)
    requires LatticeOf(y, lab, blank, classes).Valid()
    ensures LatticeOf(y, lab, blank, classes).Alpha(0, t, if onBlank then 2 * k else 2 * k - 1)
         == SpellSum(y, AllPaths(classes, t + 1), lab, blank, k, onBlank)
    decreases t
  {
    hide Collapse, Weight, Spells, SpellTerm, SpellSum, Extensions, Append, ExtendAll, ProbAt;
    hide Lattice.Alpha;
    AllPathsArePaths(classes, t);
    if t == 0 {
      FirstCell(y, lab, blank, classes, k, onBlank);
      OneSymbolSum(y, lab, blank, classes, k, onBlank);
    } else if onBlank {
      BlankCell(y, lab, blank, classes, 0, t, k);
      ExtendAllToBlank(y, AllPaths(classes, t), lab, blank, classes, t, k);
      AlphaIsPathSum(y, lab, blank, classes, t - 1, k, true);
      if k >= 1 {
        AlphaIsPathSum(y, lab, blank, classes, t - 1, k, false);
      } else {
        NoneOnClassZero(y, AllPaths(classes, t), lab, blank);
      }
    } else {
      ClassCell(y, lab, blank, classes, 0, t, k);
      ExtendAllToClass(y, AllPaths(classes, t), lab, blank, classes, t, k);
      AlphaIsPathSum(y, lab, blank, classes, t - 1, k, false);
      AlphaIsPathSum(y, lab, blank, classes, t - 1, k - 1, true);
      if k >= 2 { AlphaIsPathSum(y, lab, blank, classes, t - 1, k - 1, false); }
    }
  }

  lemma {:induction false} NoneOnClassZero(y: Table, ps: Paths, lab: seq<int>, blank: int)
    ensures SpellSum(y, ps, lab, blank, 0, false) == 0.0
  {
    if ps.Cons? {
      NothingOnClassZero(ps.path, lab, blank);
      NoneOnClassZero(y, ps.rest, lab, blank);
    }
  }

  lemma {:induction false} FinalCells(y: Table, ps: Paths, lab: seq<int>, blank: int, classes: nat, n: nat)
    requires n >= 1 && ArePaths(ps, classes, n)
    ensures CollapseSum(y, ps, lab, blank)
         == SpellSum(y, ps, lab, blank, |lab|, true) + SpellSum(y, ps, lab, blank, |lab|, false)
  {
    assert lab[..|lab|] == lab;
    if ps.Cons? {
      FinalCells(y, ps.rest, lab, blank, classes, n);
    }
  }

  /** The last two forward cells of the last row add up to the probability of the label. */
  lemma LikelihoodIsPathSum(y: Table, lab: seq<int>, blank: int, classes: nat)
    requires |y| >= 1 && IsTable(y, |y|, classes) && ValidLabel(lab, classes, blank)
    ensures LatticeOf(y, lab, blank, classes).Valid()
    ensures LatticeOf(y, lab, blank, classes).Likelihood(0)
         == CollapseSum(y, AllPaths(classes, |y|), lab, blank)
  {
    hide Collapse, Weight, Spells, SpellTerm, AllPaths;
    hide Lattice.Alpha;
    LatticeOfValid(y, lab, blank, classes);
    AllPathsArePaths(classes, |y|);
    AlphaIsPathSum(y, lab, blank, classes, |y| - 1, |lab|, true);
    AlphaIsPathSum(y, lab, blank, classes, |y| - 1, |lab|, false);
    FinalCells(y, AllPaths(classes, |y|), lab, blank, classes, |y|);
  }
}
