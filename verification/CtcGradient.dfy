/**
 Forward and backward tables meet in the same total at every time step, and the gradients
 computed from them are what they claim to be: the exact derivative of the likelihood, and
 its composition with the softmax Jacobian.
 */
module CtcGradient {
  import opened CtcSpec

  // ---- One step of either recurrence, on rows ----

  function Entering(a: seq<real>, skip: seq<bool>, i: nat): real
    requires i < |a| == |skip|
  {
    a[i] + (if i >= 1 then a[i - 1] else 0.0) + (if i >= 2 && skip[i] then a[i - 2] else 0.0)
  }

  function Leaving(b: seq<real>, skip: seq<bool>, i: nat): real
    requires i < |b| == |skip|
  {
    b[i] + (if i + 1 < |b| then b[i + 1] else 0.0) + (if i + 2 < |b| && skip[i + 2] then b[i + 2] else 0.0)
  }

  function EnteringSum(a: seq<real>, b: seq<real>, skip: seq<bool>, n: nat): real
    requires |a| == |b| == |skip| && n <= |a|
  {
    if n == 0 then 0.0 else EnteringSum(a, b, skip, n - 1) + Entering(a, skip, n - 1) * b[n - 1]
  }

  function LeavingSum(a: seq<real>, b: seq<real>, skip: seq<bool>, n: nat): real
    requires |a| == |b| == |skip| && n <= |a|
  {
    if n == 0 then 0.0 else LeavingSum(a, b, skip, n - 1) + a[n - 1] * Leaving(b, skip, n - 1)
  }

  /** The product over the edge into cell `n` from the cell before it, and from two cells before it. */
  function Single(a: seq<real>, b: seq<real>, n: nat): real
    requires |a| == |b|
  {
    if 1 <= n < |a| then a[n - 1] * b[n] else 0.0
  }

  function Double(a: seq<real>, b: seq<real>, skip: seq<bool>, n: nat): real
    requires |a| == |b| == |skip|
  {
    if 2 <= n < |a| && skip[n] then a[n - 2] * b[n] else 0.0
  }

  /** Products over the edges that cross from below cell `n` to cell `n` or above. */
  function Crossing(a: seq<real>, b: seq<real>, skip: seq<bool>, n: nat): real
    requires |a| == |b| == |skip|
  {
    Single(a, b, n) + Double(a, b, skip, n) + Double(a, b, skip, n + 1)
  }

  lemma Expand(x: real, a: real, b: real, c: real)
    ensures x * (a + b + c) == x * a + x * b + x * c
    ensures (a + b + c) * x == a * x + b * x + c * x
  {
  }

  lemma NoCrossing(a: seq<real>, b: seq<real>, skip: seq<bool>)
    requires |a| == |b| == |skip|
    ensures Crossing(a, b, skip, 0) == 0.0
  {
  }

  lemma LeavingProducts(a: seq<real>, b: seq<real>, skip: seq<bool>, i: nat)
    requires i < |a| == |b| == |skip|
    ensures a[i] * Leaving(b, skip, i) == a[i] * b[i] + Single(a, b, i + 1) + Double(a, b, skip, i + 2)
  {
    Expand(a[i], b[i], if i + 1 < |b| then b[i + 1] else 0.0, if i + 2 < |b| && skip[i + 2] then b[i + 2] else 0.0);
  }

  lemma EnteringProducts(a: seq<real>, b: seq<real>, skip: seq<bool>, i: nat)
    requires i < |a| == |b| == |skip|
    ensures Entering(a, skip, i) * b[i] == a[i] * b[i] + Single(a, b, i) + Double(a, b, skip, i)
  {
    Expand(b[i], a[i], if i >= 1 then a[i - 1] else 0.0, if i >= 2 && skip[i] then a[i - 2] else 0.0);
  }

  /** Summing the edges by their lower or by their upper end gives the same total. */
  lemma {:induction false} EdgeExchange(a: seq<real>, b: seq<real>, skip: seq<bool>, n: nat)
    requires |a| == |b| == |skip| && n <= |a|
    ensures LeavingSum(a, b, skip, n) == EnteringSum(a, b, skip, n) + Crossing(a, b, skip, n)
  {
    hide Leaving, Entering, Single, Double;
    NoCrossing(a, b, skip);
    if n > 0 {
      EdgeExchange(a, b, skip, n - 1);
      var i := n - 1;
      LeavingProducts(a, b, skip, i);
      EnteringProducts(a, b, skip, i);
      assert Crossing(a, b, skip, n) == Single(a, b, i + 1) + Double(a, b, skip, i + 1) + Double(a, b, skip, i + 2);
      assert Crossing(a, b, skip, i) == Single(a, b, i) + Double(a, b, skip, i) + Double(a, b, skip, i + 1);
      assert LeavingSum(a, b, skip, n) == LeavingSum(a, b, skip, i) + a[i] * Leaving(b, skip, i);
      assert EnteringSum(a, b, skip, n) == EnteringSum(a, b, skip, i) + Entering(a, skip, i) * b[i];
    }
  }

  // ---- Meeting of the two tables ----

  /** Products of a forward cell and what leaves it, over the cells below `n`. */
  function Meet(l: Lattice, t: nat, n: nat): real
    requires l.Valid() && t < |l.y| && n <= |l.lp|
  {
    if n == 0 then 0.0 else Meet(l, t, n - 1) + l.Alpha(0, t, n - 1) * l.BetaOut(0, t, n - 1)
  }

  function AlphaRow(l: Lattice, t: nat): (a: seq<real>)
    requires l.Valid() && t < |l.y|
    ensures |a| == |l.lp| && forall i :: 0 <= i < |a| ==> a[i] == l.Alpha(0, t, i)
  {
    seq(|l.lp|, i requires 0 <= i < |l.lp| => l.Alpha(0, t, i))
  }

  function BetaRow(l: Lattice, t: nat): (b: seq<real>)
    requires l.Valid() && t < |l.y|
    ensures |b| == |l.lp| && forall i :: 0 <= i < |b| ==> b[i] == l.Beta(0, t, i)
  {
    seq(|l.lp|, i requires 0 <= i < |l.lp| => l.Beta(0, t, i))
  }

  function SkipRow(l: Lattice): (s: seq<bool>)
    ensures |s| == |l.lp| && forall i :: 0 <= i < |s| ==> s[i] == l.Skips(i)
  {
    seq(|l.lp|, i requires 0 <= i < |l.lp| => l.Skips(i))
  }

  lemma SameJumps(l: Lattice, i: nat)
    requires l.Valid() && l.Alternates() && i + 2 < |l.lp|
    ensures l.Jumps(i) == l.Skips(i + 2)
  {
    assert (l.lp[i] == l.blank) == (l.lp[i + 2] == l.blank);
  }

  lemma BetaOutIsLeaving(l: Lattice, t: nat, i: nat)
    requires l.Valid() && l.Alternates() && t + 1 < |l.y| && i < |l.lp|
    ensures l.BetaOut(0, t, i) == Leaving(BetaRow(l, t + 1), SkipRow(l), i)
  {
    hide Lattice.Beta;
    if i + 2 < |l.lp| { SameJumps(l, i); }
  }

  lemma {:induction false} MeetIsLeavingSum(l: Lattice, t: nat, n: nat)
    requires l.Valid() && l.Alternates() && t + 1 < |l.y| && n <= |l.lp|
    ensures Meet(l, t, n) == LeavingSum(AlphaRow(l, t), BetaRow(l, t + 1), SkipRow(l), n)
  {
    hide Lattice.Alpha, Lattice.Beta, Lattice.BetaOut, Leaving;
    if n > 0 {
      MeetIsLeavingSum(l, t, n - 1);
      BetaOutIsLeaving(l, t, n - 1);
    }
  }

  lemma Reorder(a: real, y: real, b: real)
    ensures (a * y) * b == a * (b * y)
  {
  }

  lemma {:induction false} MeetIsEnteringSum(l: Lattice, t: nat, n: nat)
    requires l.Valid() && t + 1 < |l.y| && n <= |l.lp|
    ensures Meet(l, t + 1, n) == EnteringSum(AlphaRow(l, t), BetaRow(l, t + 1), SkipRow(l), n)
  {
    hide Lattice.Alpha, Lattice.AlphaIn, Lattice.BetaOut, Lattice.Beta, Entering;
    if n > 0 {
      MeetIsEnteringSum(l, t, n - 1);
      EnteringProduct(l, t, n - 1);
    }
  }

  lemma EnteringProduct(l: Lattice, t: nat, i: nat)
    requires l.Valid() && t + 1 < |l.y| && i < |l.lp|
    ensures l.Alpha(0, t + 1, i) * l.BetaOut(0, t + 1, i)
         == Entering(AlphaRow(l, t), SkipRow(l), i) * BetaRow(l, t + 1)[i]
  {
    hide Lattice.AlphaIn, Lattice.BetaOut, Entering;
    AlphaInIsEntering(l, t, i);
    Reorder(l.AlphaIn(0, t + 1, i), l.Prob(t + 1, i), l.BetaOut(0, t + 1, i));
  }

  lemma AlphaInIsEntering(l: Lattice, t: nat, i: nat)
    requires l.Valid() && t + 1 < |l.y| && i < |l.lp|
    ensures l.AlphaIn(0, t + 1, i) == Entering(AlphaRow(l, t), SkipRow(l), i)
  {
    hide Lattice.Alpha;
  }

  lemma {:induction false} MeetLast(l: Lattice, n: nat)
    requires l.Valid() && n <= |l.lp|
    ensures Meet(l, |l.y| - 1, n)
         == (if n >= |l.lp| - 1 then l.Alpha(0, |l.y| - 1, |l.lp| - 2) else 0.0)
            + (if n == |l.lp| then l.Alpha(0, |l.y| - 1, |l.lp| - 1) else 0.0)
  {
    if n > 0 { MeetLast(l, n - 1); }
  }

  lemma {:induction false} MeetFirst(l: Lattice, n: nat)
    requires l.Valid() && n <= |l.lp|
    ensures Meet(l, 0, n)
         == (if n >= 1 then l.Beta(0, 0, 0) else 0.0) + (if n >= 2 then l.Beta(0, 0, 1) else 0.0)
  {
    if n > 0 {
      MeetFirst(l, n - 1);
      Reorder(l.AlphaIn(0, 0, n - 1), l.Prob(0, n - 1), l.BetaOut(0, 0, n - 1));
    }
  }

  lemma {:induction false} MeetIsLikelihood(l: Lattice, t: nat)
    requires l.Valid() && l.Alternates() && t < |l.y|
    ensures Meet(l, t, |l.lp|) == l.Likelihood(0)
    decreases |l.y| - t
  {
    if t == |l.y| - 1 {
      MeetLast(l, |l.lp|);
    } else {
      MeetIsLeavingSum(l, t, |l.lp|);
      MeetIsEnteringSum(l, t, |l.lp|);
      EdgeExchange(AlphaRow(l, t), BetaRow(l, t + 1), SkipRow(l), |l.lp|);
      MeetIsLikelihood(l, t + 1);
    }
  }

  /** The backward loss is the forward likelihood. */
  lemma BetaLossIsLikelihood(l: Lattice)
    requires l.Valid() && l.Alternates()
    ensures l.BetaLoss(0) == l.Likelihood(0)
  {
    MeetFirst(l, |l.lp|);
    MeetIsLikelihood(l, 0);
  }

  /** The products alpha * beta with the doubly counted cell probability divided out. */
  function DividedMass(l: Lattice, t: nat, n: nat): real
    requires l.Valid() && Positive(l.y) && t < |l.y| && n <= |l.lp|
  {
    if n == 0 then 0.0
    else DividedMass(l, t, n - 1) + l.Alpha(0, t, n - 1) * l.Beta(0, t, n - 1) / l.Prob(t, n - 1)
  }

  lemma DivideOut(a: real, b: real, y: real)
    requires y > 0.0
    ensures a * (b * y) / y == a * b
  {
  }

  lemma {:induction false} DividedMassIsMeet(l: Lattice, t: nat, n: nat)
    requires l.Valid() && Positive(l.y) && t < |l.y| && n <= |l.lp|
    ensures DividedMass(l, t, n) == Meet(l, t, n)
  {
    hide Lattice.AlphaIn, Lattice.BetaOut;
    if n > 0 {
      DividedMassIsMeet(l, t, n - 1);
      DivideOut(l.Alpha(0, t, n - 1), l.BetaOut(0, t, n - 1), l.Prob(t, n - 1));
    }
  }

  /** At every time step alpha * beta / probability adds up to the same likelihood. */
  lemma ForwardBackwardInvariance(l: Lattice, t: nat)
    requires l.Valid() && l.Alternates() && Positive(l.y) && t < |l.y|
    ensures DividedMass(l, t, |l.lp|) == l.Likelihood(0) == l.BetaLoss(0)
  {
    DividedMassIsMeet(l, t, |l.lp|);
    MeetIsLikelihood(l, t);
    BetaLossIsLikelihood(l);
  }

  // ---- Gradients ----

  /** Gradient with respect to a class probability, as the loss without softmax reports it. */
  function PlainGradient(l: Lattice, first: nat, last: nat, t: nat, c: nat): real
    requires l.Valid() && t < |l.y| && c < l.classes && l.y[t][c] > 0.0 && l.Likelihood(first) > 0.0
  {
    -(l.ClassMass(first, last, t, c, |l.lp|) / l.y[t][c] / l.y[t][c] / l.Likelihood(first))
  }

  /** Gradient with respect to a class activation before softmax. */
  function SoftmaxGradient(l: Lattice, first: nat, last: nat, t: nat, c: nat): real
    requires l.Valid() && t < |l.y| && c < l.classes && l.y[t][c] > 0.0 && l.Likelihood(first) > 0.0
  {
    l.y[t][c] - l.ClassMass(first, last, t, c, |l.lp|) / l.y[t][c] / l.Likelihood(first)
  }

  /** What flows through the cells of one class at step `t`, without the step's own probability. */
  function ClassFlow(l: Lattice, t: nat, c: int, n: nat): real
    requires l.Valid() && t < |l.y| && n <= |l.lp|
  {
    if n == 0 then 0.0
    else ClassFlow(l, t, c, n - 1)
         + (if l.lp[n - 1] == c then l.AlphaIn(0, t, n - 1) * l.BetaOut(0, t, n - 1) else 0.0)
  }

  lemma SquareProduct(a: real, b: real, y: real)
    ensures (a * y) * (b * y) == y * (y * (a * b))
  {
    assert (a * y) * (b * y) == y * (a * (b * y));
    assert a * (b * y) == y * (a * b);
  }

  function Twice(y: real, x: real): real {
    y * (y * x)
  }

  lemma MassStep(mass: real, rest: real, a: real, b: real, y: real, alpha: real, beta: real, flow: real)
    requires mass == Twice(y, rest) && alpha == a * y && beta == b * y && flow == rest + a * b
    ensures mass + alpha * beta == Twice(y, flow)
  {
    SquareProduct(a, b, y);
    Split(y, rest, a * b);
    Split(y, y * rest, y * (a * b));
  }

  lemma TwiceZero(y: real)
    ensures Twice(y, 0.0) == 0.0
  {
  }

  lemma CellStep(l: Lattice, t: nat, c: nat, n: nat)
    requires l.Valid() && t < |l.y| && 1 <= n <= |l.lp| && c < l.classes && l.lp[n - 1] == c
    requires l.ClassMass(0, 0, t, c, n - 1) == Twice(l.y[t][c], ClassFlow(l, t, c, n - 1))
    ensures l.ClassMass(0, 0, t, c, n - 1) + l.Alpha(0, t, n - 1) * l.Beta(0, t, n - 1)
            == Twice(l.y[t][c], ClassFlow(l, t, c, n))
  {
    hide Lattice.AlphaIn, Lattice.BetaOut, Lattice.ClassMass;
    hide Twice;
    MassStep(l.ClassMass(0, 0, t, c, n - 1), ClassFlow(l, t, c, n - 1), l.AlphaIn(0, t, n - 1), l.BetaOut(0, t, n - 1),
             l.y[t][c], l.Alpha(0, t, n - 1), l.Beta(0, t, n - 1), ClassFlow(l, t, c, n));
  }

  lemma {:induction false} MassIsFlow(l: Lattice, t: nat, c: nat, n: nat)
    requires l.Valid() && t < |l.y| && n <= |l.lp| && c < l.classes
    ensures l.ClassMass(0, 0, t, c, n) == Twice(l.y[t][c], ClassFlow(l, t, c, n))
  {
    hide Lattice.Alpha, Lattice.Beta, Lattice.AlphaIn, Lattice.BetaOut;
    hide Twice;
    TwiceZero(l.y[t][c]);
    if n > 0 {
      MassIsFlow(l, t, c, n - 1);
      if l.lp[n - 1] == c { CellStep(l, t, c, n); }
    }
  }

  lemma Cancel(k: real, x: real)
    requires k > 0.0
    ensures k * x / k == x
  {
  }

  lemma CancelBoth(mass: real, y: real, f: real, p: real)
    requires y > 0.0 && p > 0.0 && mass == y * (y * f)
    ensures mass / y / y / p == f / p
    ensures mass / y / p == y * (f / p)
  {
    var once := y * f;
    Cancel(y, once);
    assert mass / y == once;
    Cancel(y, f);
    Cancel(p, f / p);
    assert once == p * (y * (f / p));
    Cancel(p, y * (f / p));
  }

  lemma GradientsFromFlow(l: Lattice, t: nat, c: nat)
    requires l.Valid() && t < |l.y| && c < l.classes && l.y[t][c] > 0.0 && l.Likelihood(0) > 0.0
    ensures PlainGradient(l, 0, 0, t, c) == -(ClassFlow(l, t, c, |l.lp|) / l.Likelihood(0))
    ensures SoftmaxGradient(l, 0, 0, t, c)
         == l.y[t][c] - l.y[t][c] * (ClassFlow(l, t, c, |l.lp|) / l.Likelihood(0))
  {
    hide Lattice.ClassMass, ClassFlow;
    hide Lattice.Likelihood;
    MassIsFlow(l, t, c, |l.lp|);
    CancelBoth(l.ClassMass(0, 0, t, c, |l.lp|), l.y[t][c], ClassFlow(l, t, c, |l.lp|), l.Likelihood(0));
  }

  // ---- The likelihood is linear in each row ----

  /** Flow of the classes below `c`, weighed by a row. */
  function FlowDot(l: Lattice, t: nat, z: seq<real>, c: nat, n: nat): real
    requires l.Valid() && t < |l.y| && n <= |l.lp| && c <= |z|
  {
    if c == 0 then 0.0 else FlowDot(l, t, z, c - 1, n) + z[c - 1] * ClassFlow(l, t, c - 1, n)
  }

  lemma {:induction false} FlowDotCell(l: Lattice, t: nat, z: seq<real>, c: nat, n: nat)
    requires l.Valid() && t < |l.y| && 1 <= n <= |l.lp| && c <= |z|
    ensures FlowDot(l, t, z, c, n) == FlowDot(l, t, z, c, n - 1)
            + if l.lp[n - 1] < c then z[l.lp[n - 1]] * (l.AlphaIn(0, t, n - 1) * l.BetaOut(0, t, n - 1)) else 0.0
  {
    hide Lattice.AlphaIn, Lattice.BetaOut;
    if c > 0 {
      FlowDotCell(l, t, z, c - 1, n);
    }
  }

  lemma {:induction false} FlowDotNone(l: Lattice, t: nat, z: seq<real>, c: nat)
    requires l.Valid() && t < |l.y| && c <= |z|
    ensures FlowDot(l, t, z, c, 0) == 0.0
  {
    if c > 0 { FlowDotNone(l, t, z, c - 1); }
  }

  function WithRow(l: Lattice, t: nat, z: seq<real>): Lattice
    requires t < |l.y|
  {
    l.(y := l.y[t := z])
  }

  /** Forward cells down to row `t`, and what leaves the cells from row `t` on, do not see the change. */
  lemma {:induction false} AlphaInUnchanged(l: Lattice, t: nat, z: seq<real>, u: nat, i: nat)
    requires l.Valid() && t < |l.y| && |z| == l.classes && WithRow(l, t, z).Valid()
    requires u <= t && i < |l.lp|
    ensures WithRow(l, t, z).AlphaIn(0, u, i) == l.AlphaIn(0, u, i)
    decreases u, 0
  {
    hide Lattice.Alpha;
    if u > 0 {
      AlphaUnchanged(l, t, z, u - 1, i);
      if i >= 1 { AlphaUnchanged(l, t, z, u - 1, i - 1); }
      if i >= 2 { AlphaUnchanged(l, t, z, u - 1, i - 2); }
    }
  }

  lemma {:induction false} AlphaUnchanged(l: Lattice, t: nat, z: seq<real>, u: nat, i: nat)
    requires l.Valid() && t < |l.y| && |z| == l.classes && WithRow(l, t, z).Valid()
    requires u < t && i < |l.lp|
    ensures WithRow(l, t, z).Alpha(0, u, i) == l.Alpha(0, u, i)
    decreases u, 1
  {
    hide Lattice.AlphaIn;
    AlphaInUnchanged(l, t, z, u, i);
  }

  lemma {:induction false} BetaOutUnchanged(l: Lattice, t: nat, z: seq<real>, u: nat, i: nat)
    requires l.Valid() && t < |l.y| && |z| == l.classes && WithRow(l, t, z).Valid()
    requires t <= u < |l.y| && i < |l.lp|
    ensures WithRow(l, t, z).BetaOut(0, u, i) == l.BetaOut(0, u, i)
    decreases |l.y| - u, 0
  {
    hide Lattice.Beta;
    if u + 1 < |l.y| {
      BetaUnchanged(l, t, z, u + 1, i);
      if i + 1 < |l.lp| { BetaUnchanged(l, t, z, u + 1, i + 1); }
      if i + 2 < |l.lp| { BetaUnchanged(l, t, z, u + 1, i + 2); }
    }
  }

  lemma {:induction false} BetaUnchanged(l: Lattice, t: nat, z: seq<real>, u: nat, i: nat)
    requires l.Valid() && t < |l.y| && |z| == l.classes && WithRow(l, t, z).Valid()
    requires t < u < |l.y| && i < |l.lp|
    ensures WithRow(l, t, z).Beta(0, u, i) == l.Beta(0, u, i)
    decreases |l.y| - u, 1
  {
    hide Lattice.BetaOut;
    BetaOutUnchanged(l, t, z, u, i);
  }

  lemma Weigh(a: real, b: real, z: real)
    ensures (a * z) * b == z * (a * b)
  {
  }

  lemma {:induction false} MeetIsFlowDot(l: Lattice, t: nat, z: seq<real>, n: nat)
    requires l.Valid() && t < |l.y| && |z| == l.classes && WithRow(l, t, z).Valid() && n <= |l.lp|
    ensures Meet(WithRow(l, t, z), t, n) == FlowDot(l, t, z, l.classes, n)
  {
    hide FlowDot;
    hide Lattice.AlphaIn, Lattice.BetaOut;
    if n == 0 {
      FlowDotNone(l, t, z, l.classes);
    } else {
      MeetIsFlowDot(l, t, z, n - 1);
      FlowDotCell(l, t, z, l.classes, n);
      AlphaInUnchanged(l, t, z, t, n - 1);
      BetaOutUnchanged(l, t, z, t, n - 1);
      Weigh(l.AlphaIn(0, t, n - 1), l.BetaOut(0, t, n - 1), z[l.lp[n - 1]]);
    }
  }

  /** Replacing row `t` by any row `z` makes the likelihood the flow of that row weighed by `z`. */
  lemma LikelihoodIsLinear(l: Lattice, t: nat, z: seq<real>)
    requires l.Valid() && l.Alternates() && t < |l.y| && |z| == l.classes
    ensures WithRow(l, t, z).Valid()
    ensures WithRow(l, t, z).Likelihood(0) == FlowDot(l, t, z, l.classes, |l.lp|)
  {
    MeetIsFlowDot(l, t, z, |l.lp|);
    MeetIsLikelihood(WithRow(l, t, z), t);
  }

  /** (z - y_t) dotted with the plain gradient row, over the classes below `c`. */
  function GradientDot(l: Lattice, t: nat, z: seq<real>, c: nat): real
    requires l.Valid() && Positive(l.y) && t < |l.y| && |z| == l.classes && c <= l.classes && l.Likelihood(0) > 0.0
  {
    if c == 0 then 0.0
    else GradientDot(l, t, z, c - 1) + (z[c - 1] - l.y[t][c - 1]) * PlainGradient(l, 0, 0, t, c - 1)
  }

  lemma Split(x: real, a: real, b: real)
    ensures x * (a + b) == x * a + x * b
  {
  }

  lemma GradientTerm(p: real, d: real, f: real)
    requires p > 0.0
    ensures -p * (d * -(f / p)) == d * f
  {
    assert p * (f / p) == f;
    assert -p * (d * -(f / p)) == d * (p * (f / p));
  }

  lemma {:induction false} GradientDotIsFlow(l: Lattice, t: nat, z: seq<real>, c: nat)
    requires l.Valid() && Positive(l.y) && t < |l.y| && |z| == l.classes && c <= l.classes && l.Likelihood(0) > 0.0
    ensures -l.Likelihood(0) * GradientDot(l, t, z, c)
         == FlowDot(l, t, z, c, |l.lp|) - FlowDot(l, t, l.y[t], c, |l.lp|)
  {
    hide ClassFlow, PlainGradient;
    hide Lattice.Likelihood;
    if c > 0 {
      GradientDotIsFlow(l, t, z, c - 1);
      GradientsFromFlow(l, t, c - 1);
      var p, d, f := l.Likelihood(0), z[c - 1] - l.y[t][c - 1], ClassFlow(l, t, c - 1, |l.lp|);
      GradientTerm(p, d, f);
      Split(-p, GradientDot(l, t, z, c - 1), d * PlainGradient(l, 0, 0, t, c - 1));
      Split(f, z[c - 1], -l.y[t][c - 1]);
    }
  }

  /** The plain gradient row is the exact derivative of minus the logarithm of the likelihood. */
  lemma GradientIsDerivative(l: Lattice, t: nat, z: seq<real>)
    requires l.Valid() && l.Alternates() && Positive(l.y) && t < |l.y| && |z| == l.classes && l.Likelihood(0) > 0.0
    ensures WithRow(l, t, z).Valid()
    ensures WithRow(l, t, z).Likelihood(0) - l.Likelihood(0)
         == -l.Likelihood(0) * GradientDot(l, t, z, l.classes)
  {
    hide FlowDot, GradientDot;
    hide Lattice.Likelihood;
    LikelihoodIsLinear(l, t, z);
    LikelihoodIsLinear(l, t, l.y[t]);
    assert l.y[t := l.y[t]] == l.y;
    GradientDotIsFlow(l, t, z, l.classes);
  }

  // ---- Softmax ----

  function RowTotal(row: seq<real>, c: nat): real
    requires c <= |row|
  {
    if c == 0 then 0.0 else RowTotal(row, c - 1) + row[c - 1]
  }

  /** The softmax-layer gradients of the classes below `c` at step `t`. */
  function SoftmaxTotal(l: Lattice, t: nat, c: nat): real
    requires l.Valid() && Positive(l.y) && t < |l.y| && c <= l.classes && l.Likelihood(0) > 0.0
  {
    if c == 0 then 0.0 else SoftmaxTotal(l, t, c - 1) + SoftmaxGradient(l, 0, 0, t, c - 1)
  }

  /** The row of probabilities dotted with the plain gradient row. */
  function GradientAlongRow(l: Lattice, t: nat, c: nat): real
    requires l.Valid() && Positive(l.y) && t < |l.y| && c <= l.classes && l.Likelihood(0) > 0.0
  {
    if c == 0 then 0.0
    else GradientAlongRow(l, t, c - 1) + l.y[t][c - 1] * PlainGradient(l, 0, 0, t, c - 1)
  }

  lemma Regroup(p: real, s: real, y: real, f: real)
    requires p > 0.0
    ensures s / p + y * (f / p) == (s + y * f) / p
  {
    assert y * (f / p) == y * f / p;
  }

  lemma {:induction false} AlongRowIsFlow(l: Lattice, t: nat, c: nat)
    requires l.Valid() && Positive(l.y) && t < |l.y| && c <= l.classes && l.Likelihood(0) > 0.0
    ensures GradientAlongRow(l, t, c) == -(FlowDot(l, t, l.y[t], c, |l.lp|) / l.Likelihood(0))
    ensures SoftmaxTotal(l, t, c) == RowTotal(l.y[t], c) - FlowDot(l, t, l.y[t], c, |l.lp|) / l.Likelihood(0)
  {
    hide ClassFlow, PlainGradient, SoftmaxGradient;
    hide Lattice.Likelihood;
    if c > 0 {
      AlongRowIsFlow(l, t, c - 1);
      GradientsFromFlow(l, t, c - 1);
      Regroup(l.Likelihood(0), FlowDot(l, t, l.y[t], c - 1, |l.lp|), l.y[t][c - 1], ClassFlow(l, t, c - 1, |l.lp|));
    }
  }

  /** Over all classes the softmax-layer gradients at a step cancel exactly when the row sums to one. */
  lemma SoftmaxConservesMass(l: Lattice, t: nat)
    requires l.Valid() && l.Alternates() && Positive(l.y) && t < |l.y| && l.Likelihood(0) > 0.0
    ensures SoftmaxTotal(l, t, l.classes) == RowTotal(l.y[t], l.classes) - 1.0
    ensures SoftmaxTotal(l, t, l.classes) == 0.0 <==> RowTotal(l.y[t], l.classes) == 1.0
  {
    hide FlowDot, SoftmaxTotal, RowTotal;
    hide Lattice.Likelihood;
    AlongRowIsFlow(l, t, l.classes);
    LikelihoodIsLinear(l, t, l.y[t]);
    assert l.y[t := l.y[t]] == l.y;
    Cancel(l.Likelihood(0), 1.0);
  }

  /** The softmax-layer gradient is the softmax Jacobian applied to the plain gradient row. */
  lemma SoftmaxGradientIsJacobian(l: Lattice, t: nat, c: nat)
    requires l.Valid() && l.Alternates() && Positive(l.y) && t < |l.y| && c < l.classes && l.Likelihood(0) > 0.0
    ensures SoftmaxGradient(l, 0, 0, t, c)
         == l.y[t][c] * (PlainGradient(l, 0, 0, t, c) - GradientAlongRow(l, t, l.classes))
  {
    hide FlowDot, ClassFlow, GradientAlongRow, PlainGradient, SoftmaxGradient;
    hide Lattice.Likelihood;
    AlongRowIsFlow(l, t, l.classes);
    LikelihoodIsLinear(l, t, l.y[t]);
    assert l.y[t := l.y[t]] == l.y;
    Cancel(l.Likelihood(0), 1.0);
    GradientsFromFlow(l, t, c);
    Split(l.y[t][c], -(ClassFlow(l, t, c, |l.lp|) / l.Likelihood(0)), 1.0);
  }
}
