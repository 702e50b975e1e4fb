/** The packed forward pass: all sequences together, row by row, one time step forth and one back in each turn. */
module LstmForward {
  import opened LstmPacking
  import opened LstmAlone

  /** The problem: packed inputs and the initial rows, `sizes[0]` for each layer and direction. */
  datatype Packed<!X, !P, !C, !H> = Packed(net: Net<X, P, C, H>, bidirectional: bool, layers: nat, sizes: seq<nat>,
                                           xs: seq<X>, hx: Option<seq<H>>, cx: Option<seq<C>>) {
    ghost predicate Valid() {
      && Packable(sizes) && |xs| == Rows(sizes)
      && (hx.Some? ==> |hx.value| == layers * Turns() * sizes[0])
      && (cx.Some? ==> |cx.value| == layers * Turns() * sizes[0])
    }

    function Turns(): nat { if bidirectional then 2 else 1 }

    /** Where layer `l` keeps its initial and final rows. */
    function HxShift(l: nat): nat
      requires |sizes| >= 1
    {
      l * Turns() * sizes[0]
    }

    function HxRow(l: nat, d: Direction, b: nat): nat
      requires |sizes| >= 1
    {
      HxShift(l) + (if d == Back then sizes[0] else 0) + b
    }

    function StartH(b: nat): (nat, Direction) -> Option<H>
      requires |sizes| >= 1
    {
      (l: nat, d: Direction) => if hx.Some? && HxRow(l, d, b) < |hx.value| then Some(hx.value[HxRow(l, d, b)]) else None
    }

    function StartC(b: nat): (nat, Direction) -> Option<C>
      requires |sizes| >= 1
    {
      (l: nat, d: Direction) => if cx.Some? && HxRow(l, d, b) < |cx.value| then Some(cx.value[HxRow(l, d, b)]) else None
    }

    /** Sequence `b`, taken out of the packed rows. */
    ghost function Sequence(b: nat): (a: Alone<X, P, C, H>)
      requires Valid()
      ensures |a.xs| == Length(sizes, b)
    {
      LengthIs(sizes, b);
      Alone(net, bidirectional, seq(Length(sizes, b), t requires 0 <= t < Length(sizes, b) => InputRow(t, b)),
            StartH(b), StartC(b))
    }

    ghost function InputRow(t: nat, b: nat): X
      requires Valid() && t < Length(sizes, b)
    {
      LengthIs(sizes, b);
      RowInside(sizes, t, b);
      xs[Offset(sizes, t) + b]
    }
  }

  /** Row of sequence `b` at time `t` in the layer that begins at `shift`. */
  function At(sizes: seq<nat>, shift: nat, t: nat, b: nat): nat
    requires t <= |sizes|
  {
    shift + Offset(sizes, t) + b
  }

  /** The rows of all layers for one direction: pre-activations, cells and hidden rows. */
  datatype Side<P, C, H> = Side(pre: seq<P>, c: seq<C>, h: seq<H>)

  ghost predicate Sized<P, C, H>(side: Side<P, C, H>, rows: nat) {
    |side.pre| == rows && |side.c| == rows && |side.h| == rows
  }

  ghost predicate PreHolds<X, P, C, H>(p: Packed<X, P, C, H>, side: Side<P, C, H>, shift: nat, l: nat, d: Direction,
                                       lo: nat, hi: nat)
    requires p.Valid() && hi <= |p.sizes|
  {
    forall t: nat, b: nat :: lo <= t < hi && b < p.sizes[t] ==>
      At(p.sizes, shift, t, b) < |side.pre| && t < |p.Sequence(b).xs|
      && side.pre[At(p.sizes, shift, t, b)] == p.Sequence(b).Pre(l, d, t)
  }

  /** Row `(t, b)` of the side holds a state. */
  ghost predicate RowIs<P, C, H>(side: Side<P, C, H>, row: nat, s: State<C, H>) {
    row < |side.c| && row < |side.h| && side.c[row] == s.c && side.h[row] == s.h
  }

  ghost predicate RowWritten<P, C, H>(side: Side<P, C, H>, next: Side<P, C, H>, row: nat, s: State<C, H>) {
    row < |side.c| && row < |side.h| && next == side.(c := side.c[row := s.c], h := side.h[row := s.h])
  }

  ghost predicate EndWritten<C, H>(hy: seq<H>, cy: seq<C>, hy': seq<H>, cy': seq<C>, row: nat, s: State<C, H>) {
    row < |hy| && row < |cy| && hy' == hy[row := s.h] && cy' == cy[row := s.c]
  }

  ghost predicate ForwardHolds<X, P, C, H>(p: Packed<X, P, C, H>, side: Side<P, C, H>, shift: nat, l: nat, n: nat)
    requires p.Valid() && n <= |p.sizes|
  {
    forall t: nat, b: nat :: t < n && b < p.sizes[t] ==>
      t < |p.Sequence(b).xs| && RowIs(side, At(p.sizes, shift, t, b), p.Sequence(b).Forward(l, t))
  }

  ghost predicate ReverseHolds<X, P, C, H>(p: Packed<X, P, C, H>, side: Side<P, C, H>, shift: nat, l: nat, n: nat)
    requires p.Valid()
  {
    forall t: nat, b: nat :: n <= t < |p.sizes| && b < p.sizes[t] ==>
      t < |p.Sequence(b).xs| && RowIs(side, At(p.sizes, shift, t, b), p.Sequence(b).Reverse(l, t))
  }

  lemma SequenceSteps<X, P, C, H>(p: Packed<X, P, C, H>, t: nat, b: nat)
    requires p.Valid() && t < |p.sizes|
    ensures b < p.sizes[t] <==> t < |p.Sequence(b).xs|
  {
    LengthIs(p.sizes, b);
  }

  lemma HxInside<X, P, C, H>(p: Packed<X, P, C, H>, l: nat, d: Direction, b: nat)
    requires p.Valid() && l < p.layers && b < p.sizes[0] && (d == Back ==> p.bidirectional)
    ensures p.HxRow(l, d, b) < p.layers * p.Turns() * p.sizes[0]
    ensures p.hx.Some? ==> p.StartH(b)(l, d) == Some(p.hx.value[p.HxRow(l, d, b)])
    ensures p.cx.Some? ==> p.StartC(b)(l, d) == Some(p.cx.value[p.HxRow(l, d, b)])
    ensures p.hx.None? ==> p.StartH(b)(l, d) == None
    ensures p.cx.None? ==> p.StartC(b)(l, d) == None
  {
    HxWithin(p.layers, p.Turns(), p.sizes[0], l, (if d == Back then p.sizes[0] else 0) + b);
  }

  /** Initial and final rows follow each other: the sequences forth, then those back, then the next layer. */
  lemma HxRowsFollow<X, P, C, H>(p: Packed<X, P, C, H>, l: nat, d: Direction, b: nat)
    requires p.Valid()
    ensures p.HxRow(0, Forth, 0) == 0 && p.HxRow(l, d, b + 1) == p.HxRow(l, d, b) + 1
    ensures p.bidirectional ==>
              p.HxRow(l, Back, 0) == p.HxRow(l, Forth, p.sizes[0])
              && p.HxRow(l + 1, Forth, 0) == p.HxRow(l, Back, p.sizes[0])
    ensures !p.bidirectional ==> p.HxRow(l + 1, Forth, 0) == p.HxRow(l, Forth, p.sizes[0])
  {
  }

  lemma Wider(k: nat, m: nat, n: nat)
    requires k <= m
    ensures k * n <= m * n
  {
  }

  lemma HxWithin(layers: nat, turns: nat, n: nat, l: nat, k: nat)
    requires l < layers && k < turns * n
    ensures l * turns * n + k < layers * turns * n
  {
    assert (l + 1) * (turns * n) <= layers * (turns * n) by { Wider(l + 1, layers, turns * n); }
    assert l * turns * n == l * (turns * n) && layers * turns * n == layers * (turns * n);
  }

  function Least(a: nat, b: nat): nat { if a < b then a else b }

  /** After `n` turns the forward part of the final rows holds every sequence's last state so far. */
  ghost predicate ForthEnds<X, P, C, H>(p: Packed<X, P, C, H>, hy: seq<H>, cy: seq<C>, l: nat, n: nat)
    requires p.Valid()
  {
    n >= 1 ==> forall b: nat :: b < p.sizes[0] ==>
      p.HxRow(l, Forth, b) < |hy| && p.HxRow(l, Forth, b) < |cy| && |p.Sequence(b).xs| >= 1
      && State(cy[p.HxRow(l, Forth, b)], hy[p.HxRow(l, Forth, b)])
         == p.Sequence(b).Forward(l, Least(n, |p.Sequence(b).xs|) - 1)
  }

  /** The reverse part holds, for all sequences that have begun, their state at time `n`. */
  ghost predicate BackEnds<X, P, C, H>(p: Packed<X, P, C, H>, hy: seq<H>, cy: seq<C>, l: nat, n: nat)
    requires p.Valid()
  {
    n < |p.sizes| ==> forall b: nat :: b < p.sizes[n] ==>
      p.HxRow(l, Back, b) < |hy| && p.HxRow(l, Back, b) < |cy| && n < |p.Sequence(b).xs|
      && State(cy[p.HxRow(l, Back, b)], hy[p.HxRow(l, Back, b)]) == p.Sequence(b).Reverse(l, n)
  }

  ghost function ForthH<X, P, C, H>(p: Packed<X, P, C, H>, l: nat, t: nat, b: nat): Option<H>
    requires p.Valid() && t < |p.Sequence(b).xs|
  {
    if t == 0 then p.StartH(b)(l, Forth) else Some(p.Sequence(b).Forward(l, t - 1).h)
  }

  ghost function ForthC<X, P, C, H>(p: Packed<X, P, C, H>, l: nat, t: nat, b: nat): Option<C>
    requires p.Valid() && t < |p.Sequence(b).xs|
  {
    if t == 0 then p.StartC(b)(l, Forth) else Some(p.Sequence(b).Forward(l, t - 1).c)
  }

  lemma ForwardIs<X, P, C, H>(p: Packed<X, P, C, H>, l: nat, t: nat, b: nat)
    requires p.Valid() && t < |p.Sequence(b).xs|
    ensures p.Sequence(b).Forward(l, t)
            == p.net.Step(l, Forth, p.Sequence(b).Pre(l, Forth, t), ForthH(p, l, t, b), ForthC(p, l, t, b))
  {
    hide Alone.Pre, Net.Step, Packed.StartH, Packed.StartC;
  }

  ghost predicate ForthGates<X, P, C, H>(p: Packed<X, P, C, H>, side: Side<P, C, H>, shift: nat, l: nat, t: nat)
    requires p.Valid() && t < |p.sizes|
  {
    forall b: nat :: b < p.sizes[t] ==>
      At(p.sizes, shift, t, b) < |side.pre| && t < |p.Sequence(b).xs|
      && side.pre[At(p.sizes, shift, t, b)]
         == p.net.Gates(l, Forth, p.Sequence(b).Pre(l, Forth, t), ForthH(p, l, t, b))
  }

  ghost function BackH<X, P, C, H>(p: Packed<X, P, C, H>, l: nat, t: nat, b: nat): Option<H>
    requires p.Valid() && t < |p.Sequence(b).xs|
  {
    if t == |p.Sequence(b).xs| - 1 then p.StartH(b)(l, Back) else Some(p.Sequence(b).Reverse(l, t + 1).h)
  }

  ghost function BackC<X, P, C, H>(p: Packed<X, P, C, H>, l: nat, t: nat, b: nat): Option<C>
    requires p.Valid() && t < |p.Sequence(b).xs|
  {
    if t == |p.Sequence(b).xs| - 1 then p.StartC(b)(l, Back) else Some(p.Sequence(b).Reverse(l, t + 1).c)
  }

  lemma ReverseIs<X, P, C, H>(p: Packed<X, P, C, H>, l: nat, t: nat, b: nat)
    requires p.Valid() && t < |p.Sequence(b).xs|
    ensures p.Sequence(b).Reverse(l, t)
            == p.net.Step(l, Back, p.Sequence(b).Pre(l, Back, t), BackH(p, l, t, b), BackC(p, l, t, b))
  {
    hide Alone.Pre, Net.Step, Packed.StartH, Packed.StartC;
  }

  ghost predicate BackGates<X, P, C, H>(p: Packed<X, P, C, H>, side: Side<P, C, H>, shift: nat, l: nat, t: nat)
    requires p.Valid() && t < |p.sizes|
  {
    forall b: nat :: b < p.sizes[t] ==>
      At(p.sizes, shift, t, b) < |side.pre| && t < |p.Sequence(b).xs|
      && side.pre[At(p.sizes, shift, t, b)] == p.net.Gates(l, Back, p.Sequence(b).Pre(l, Back, t), BackH(p, l, t, b))
  }

  /** Adds the hidden product of `count` rows from `src` to the pre-activations from `dst` on. */
  method AddHidden<X, P, C, H>(net: Net<X, P, C, H>, l: nat, d: Direction, pre: seq<P>, dst: nat, count: nat,
                               src: seq<H>, from: nat)
    returns (next: seq<P>)
    requires dst + count <= |pre| && from + count <= |src|
    ensures |next| == |pre|
    ensures forall q :: 0 <= q < |pre| ==>
              next[q] == if dst <= q < dst + count then net.recur(l, d, pre[q], src[from + (q - dst)]) else pre[q]
  {
    next := pre;
    for k := 0 to count
      invariant |next| == |pre|
      invariant forall q :: 0 <= q < |pre| ==>
                  next[q] == if dst <= q < dst + k then net.recur(l, d, pre[q], src[from + (q - dst)]) else pre[q]
    {
      next := next[dst + k := net.recur(l, d, next[dst + k], src[from + k])];
    }
  }

  /** `next` is `pre` with the old hidden rows added to `count` rows from `dst` on. */
  ghost predicate Added<X, P, C, H>(net: Net<X, P, C, H>, l: nat, d: Direction, pre: seq<P>, next: seq<P>, dst: nat,
                                    count: nat, src: seq<H>, from: nat)
  {
    && |next| == |pre| && dst + count <= |pre| && from + count <= |src|
    && forall q :: 0 <= q < |pre| ==>
         next[q] == if dst <= q < dst + count then net.recur(l, d, pre[q], src[from + (q - dst)]) else pre[q]
  }

  /** What the forward direction adds is what every sequence's own step adds. */
  lemma ForthAdded<X, P, C, H>(p: Packed<X, P, C, H>, side: Side<P, C, H>, next: seq<P>, l: nat, shift: nat, ti: nat,
                               src: seq<H>, from: nat)
    requires p.Valid() && ti < |p.sizes| && PreHolds(p, side, shift, l, Forth, ti, |p.sizes|)
    requires Added(p.net, l, Forth, side.pre, next, At(p.sizes, shift, ti, 0), p.sizes[ti], src, from)
    requires forall b: nat :: b < p.sizes[ti] ==> ti < |p.Sequence(b).xs| && ForthH(p, l, ti, b) == Some(src[from + b])
    ensures ForthGates(p, side.(pre := next), shift, l, ti)
  {
    hide Alone.Pre, Packed.Sequence, ForthH, Net.Gates, At;
    forall b: nat | b < p.sizes[ti]
      ensures At(p.sizes, shift, ti, b) < |next|
              && next[At(p.sizes, shift, ti, b)]
                 == p.net.Gates(l, Forth, p.Sequence(b).Pre(l, Forth, ti), ForthH(p, l, ti, b))
    {
      AddedRow(p.net, l, Forth, side.pre, next, p.sizes, shift, ti, 0, p.sizes[ti], b, src, from);
      GatesWith(p.net, l, Forth, side.pre[At(p.sizes, shift, ti, b)], src[from + b]);
    }
  }

  /** Rows `lo`, …, `lo + count - 1` of one time step gain their old hidden row, the others keep what they had. */
  lemma AddedRow<X, P, C, H>(net: Net<X, P, C, H>, l: nat, d: Direction, pre: seq<P>, next: seq<P>, sizes: seq<nat>,
                             shift: nat, t: nat, lo: nat, count: nat, b: nat, src: seq<H>, from: nat)
    requires t < |sizes| && At(sizes, shift, t, b) < |pre|
    requires Added(net, l, d, pre, next, At(sizes, shift, t, lo), count, src, from)
    ensures |next| == |pre|
    ensures lo <= b < lo + count ==>
              from + (b - lo) < |src|
              && next[At(sizes, shift, t, b)] == net.recur(l, d, pre[At(sizes, shift, t, b)], src[from + (b - lo)])
    ensures !(lo <= b < lo + count) ==> next[At(sizes, shift, t, b)] == pre[At(sizes, shift, t, b)]
  {
    assert At(sizes, shift, t, b) - At(sizes, shift, t, lo) == b - lo;
  }

  lemma GatesWith<X, P, C, H>(net: Net<X, P, C, H>, l: nat, d: Direction, pre: P, h: H)
    ensures net.Gates(l, d, pre, Some(h)) == net.recur(l, d, pre, h)
  {
  }

  /** Rows of other time steps keep their pre-activations. */
  lemma PreKept<X, P, C, H>(p: Packed<X, P, C, H>, side: Side<P, C, H>, next: seq<P>, l: nat, d: Direction, shift: nat,
                            lo: nat, hi: nat, ti: nat)
    requires p.Valid() && hi <= |p.sizes| && PreHolds(p, side, shift, l, d, lo, hi) && |next| == |side.pre|
    requires ti < |p.sizes| && !(lo <= ti < hi) && Elsewhere(p.sizes, shift, ti, side.pre, next)
    ensures PreHolds(p, side.(pre := next), shift, l, d, lo, hi)
  {
    hide Alone.Pre, Packed.Sequence, At;
    forall t: nat, b: nat | lo <= t < hi && b < p.sizes[t]
      ensures At(p.sizes, shift, t, b) < |next| && next[At(p.sizes, shift, t, b)] == side.pre[At(p.sizes, shift, t, b)]
    {
      StepsApart(p.sizes, shift, t, b, ti);
    }
  }

  lemma StepsApart(sizes: seq<nat>, shift: nat, t: nat, b: nat, ti: nat)
    requires t < |sizes| && ti < |sizes| && t != ti && b < sizes[t]
    ensures !(At(sizes, shift, ti, 0) <= At(sizes, shift, t, b) < At(sizes, shift, ti, sizes[ti]))
  {
    if t < ti { OffsetGrows(sizes, t, ti); } else { OffsetGrows(sizes, ti, t); }
  }

  /** Only rows of time step `ti` differ. */
  ghost predicate Elsewhere<T>(sizes: seq<nat>, shift: nat, ti: nat, before: seq<T>, after: seq<T>)
    requires ti < |sizes|
  {
    |after| == |before|
    && forall q :: 0 <= q < |after| && !(At(sizes, shift, ti, 0) <= q < At(sizes, shift, ti, sizes[ti])) ==>
         after[q] == before[q]
  }

  /** Sequences that go on take the running rows, sequences that begin take their initial rows if there are any. */
  lemma BackAdded<X, P, C, H>(p: Packed<X, P, C, H>, side: Side<P, C, H>, middle: seq<P>, next: seq<P>, l: nat,
                              shift: nat, t: nat, going: nat, src: seq<H>, from: nat)
    requires p.Valid() && p.bidirectional && l < p.layers
    requires t < |p.sizes| && PreHolds(p, side, shift, l, Back, 0, t + 1) && going <= p.sizes[t]
    requires if p.hx.Some?
             then Added(p.net, l, Back, side.pre, middle, At(p.sizes, shift, t, going), p.sizes[t] - going,
                                      p.hx.value, p.HxRow(l, Back, going))
             else middle == side.pre
    requires Added(p.net, l, Back, middle, next, At(p.sizes, shift, t, 0), going, src, from)
    requires forall b: nat :: b < going ==> t < |p.Sequence(b).xs| && BackH(p, l, t, b) == Some(src[from + b])
    requires forall b: nat :: going <= b < p.sizes[t] ==>
               t < |p.Sequence(b).xs| && BackH(p, l, t, b) == p.StartH(b)(l, Back)
    ensures BackGates(p, side.(pre := next), shift, l, t)
  {
    hide Alone.Pre, Packed.Sequence, BackH, Net.Gates, At, Added, Packed.StartH, Packed.HxShift, Packed.HxRow;
    forall b: nat | b < p.sizes[t]
      ensures At(p.sizes, shift, t, b) < |next|
              && next[At(p.sizes, shift, t, b)]
                 == p.net.Gates(l, Back, p.Sequence(b).Pre(l, Back, t), BackH(p, l, t, b))
    {
      BackAddedRow(p, side, middle, next, l, shift, t, going, src, from, b);
    }
  }

  lemma BackAddedRow<X, P, C, H>(p: Packed<X, P, C, H>, side: Side<P, C, H>, middle: seq<P>, next: seq<P>, l: nat,
                                 shift: nat, t: nat, going: nat, src: seq<H>, from: nat, b: nat)
    requires p.Valid() && p.bidirectional && l < p.layers && b < p.sizes[0]
    requires t < |p.sizes| && At(p.sizes, shift, t, b) < |side.pre| && going <= p.sizes[t] && b < p.sizes[t]
    requires t < |p.Sequence(b).xs|
    requires if p.hx.Some?
             then Added(p.net, l, Back, side.pre, middle, At(p.sizes, shift, t, going), p.sizes[t] - going,
                                      p.hx.value, p.HxRow(l, Back, going))
             else middle == side.pre
    requires Added(p.net, l, Back, middle, next, At(p.sizes, shift, t, 0), going, src, from)
    requires b < going ==> BackH(p, l, t, b) == Some(src[from + b])
    requires b >= going ==> BackH(p, l, t, b) == p.StartH(b)(l, Back)
    ensures |next| == |side.pre|
    ensures next[At(p.sizes, shift, t, b)]
            == p.net.Gates(l, Back, side.pre[At(p.sizes, shift, t, b)], BackH(p, l, t, b))
  {
    hide Alone.Pre, Packed.Sequence, BackH, At, Added, Packed.StartH, Packed.HxShift;
    HxInside(p, l, Back, b);
    if p.hx.Some? {
      AddedRow(p.net, l, Back, side.pre, middle, p.sizes, shift, t, going, p.sizes[t] - going, b, p.hx.value,
               p.HxRow(l, Back, going));
      assert p.HxRow(l, Back, b) == p.HxRow(l, Back, going) - going + b;
    }
    AddedRow(p.net, l, Back, middle, next, p.sizes, shift, t, 0, going, b, src, from);
  }

  /** Sequences that take part at `t` but not at `t + 1` begin their way back here. */
  lemma BackStarts<X, P, C, H>(p: Packed<X, P, C, H>, l: nat, t: nat, going: nat)
    requires p.Valid() && t < |p.sizes| && going == if t + 1 < |p.sizes| then p.sizes[t + 1] else 0
    ensures forall b: nat :: going <= b < p.sizes[t] ==>
              t < |p.Sequence(b).xs| && BackH(p, l, t, b) == p.StartH(b)(l, Back)
                && BackC(p, l, t, b) == p.StartC(b)(l, Back)
  {
    hide Packed.StartH, Packed.StartC, Packed.Sequence;
    forall b: nat | going <= b < p.sizes[t]
      ensures t < |p.Sequence(b).xs| && BackH(p, l, t, b) == p.StartH(b)(l, Back)
      ensures BackC(p, l, t, b) == p.StartC(b)(l, Back)
    {
      SequenceSteps(p, t, b);
      if t + 1 < |p.sizes| { SequenceSteps(p, t + 1, b); } else { LengthInside(p, b); }
    }
  }

  lemma LengthInside<X, P, C, H>(p: Packed<X, P, C, H>, b: nat)
    requires p.Valid()
    ensures |p.Sequence(b).xs| <= |p.sizes|
  {
    LengthIs(p.sizes, b);
  }

  lemma HxBackFits<X, P, C, H>(p: Packed<X, P, C, H>, l: nat, n: nat)
    requires p.Valid() && p.bidirectional && l < p.layers && n <= p.sizes[0]
    ensures p.HxRow(l, Back, n) <= p.layers * p.Turns() * p.sizes[0]
  {
    if n > 0 { HxWithin(p.layers, 2, p.sizes[0], l, p.sizes[0] + n - 1); }
    else { HxEdge(p.layers, p.sizes[0], l); }
  }

  lemma HxEdge(layers: nat, n: nat, l: nat)
    requires l < layers
    ensures l * 2 * n + n <= layers * 2 * n
  {
    if n > 0 { HxWithin(layers, 2, n, l, n - 1); }
  }

  /** The running rows hold the states of the step after for everyone who took part in it. */
  lemma BackRuns<X, P, C, H>(p: Packed<X, P, C, H>, hy: seq<H>, cy: seq<C>, l: nat, t: nat)
    requires p.Valid() && t + 1 < |p.sizes| && BackEnds(p, hy, cy, l, t + 1)
    ensures forall b: nat :: b < p.sizes[t + 1] ==>
              t < |p.Sequence(b).xs| && p.HxRow(l, Back, 0) + b < |hy|
                && BackH(p, l, t, b) == Some(hy[p.HxRow(l, Back, 0) + b])
  {
    hide Packed.Sequence, Packed.HxShift, Alone.Reverse;
    forall b: nat | b < p.sizes[t + 1]
      ensures t < |p.Sequence(b).xs| && p.HxRow(l, Back, 0) + b < |hy|
      ensures BackH(p, l, t, b) == Some(hy[p.HxRow(l, Back, 0) + b])
    {
      SequenceSteps(p, t, b);
      SequenceSteps(p, t + 1, b);
      assert p.HxRow(l, Back, b) == p.HxRow(l, Back, 0) + b;
      assert State(cy[p.HxRow(l, Back, b)], hy[p.HxRow(l, Back, b)]) == p.Sequence(b).Reverse(l, t + 1);
    }
  }

  // ---- Writing the states of one time step ----

  ghost function StateAt<X, P, C, H>(p: Packed<X, P, C, H>, l: nat, d: Direction, t: nat, b: nat): State<C, H>
    requires p.Valid() && t < |p.Sequence(b).xs|
  {
    if d == Forth then p.Sequence(b).Forward(l, t) else p.Sequence(b).Reverse(l, t)
  }

  ghost predicate EndIs<C, H>(hy: seq<H>, cy: seq<C>, row: nat, s: State<C, H>) {
    row < |hy| && row < |cy| && hy[row] == s.h && cy[row] == s.c
  }

  /**
   The first `n` sequences have their state at `ti` in the packed rows and in the running rows; nothing else has
   changed.
   */
  ghost predicate CellsSoFar<X, P, C, H>(p: Packed<X, P, C, H>, d: Direction, side0: Side<P, C, H>, side: Side<P, C, H>,
                                         hy0: seq<H>, cy0: seq<C>, hy: seq<H>, cy: seq<C>, l: nat, shift: nat, ti: nat,
                                         n: nat)
    requires p.Valid() && ti < |p.sizes|
  {
    && side.pre == side0.pre
    && Elsewhere(p.sizes, shift, ti, side0.c, side.c) && Elsewhere(p.sizes, shift, ti, side0.h, side.h)
    && |hy| == |hy0| && |cy| == |cy0|
    && (forall b: nat :: b < n ==>
          ti < |p.Sequence(b).xs| && RowIs(side, At(p.sizes, shift, ti, b), StateAt(p, l, d, ti, b))
          && EndIs(hy, cy, p.HxRow(l, d, b), StateAt(p, l, d, ti, b)))
    && (forall q :: 0 <= q < |hy| && !(p.HxRow(l, d, 0) <= q < p.HxRow(l, d, n)) ==> hy[q] == hy0[q])
    && (forall q :: 0 <= q < |cy| && !(p.HxRow(l, d, 0) <= q < p.HxRow(l, d, n)) ==> cy[q] == cy0[q])
  }

  lemma CellWritten<X, P, C, H>(p: Packed<X, P, C, H>, d: Direction, side0: Side<P, C, H>, side: Side<P, C, H>,
                                next: Side<P, C, H>, hy0: seq<H>, cy0: seq<C>, hy: seq<H>, cy: seq<C>, hy': seq<H>,
                                cy': seq<C>, l: nat, shift: nat, ti: nat, n: nat)
    requires p.Valid() && ti < |p.sizes| && n < p.sizes[ti] && ti < |p.Sequence(n).xs|
    requires CellsSoFar(p, d, side0, side, hy0, cy0, hy, cy, l, shift, ti, n)
    requires RowWritten(side, next, At(p.sizes, shift, ti, n), StateAt(p, l, d, ti, n))
    requires EndWritten(hy, cy, hy', cy', p.HxRow(l, d, n), StateAt(p, l, d, ti, n))
    ensures CellsSoFar(p, d, side0, next, hy0, cy0, hy', cy', l, shift, ti, n + 1)
  {
    hide StateAt, Packed.Sequence, Offset, Packed.HxShift;
  }

  lemma ForwardKept<X, P, C, H>(p: Packed<X, P, C, H>, side: Side<P, C, H>, next: Side<P, C, H>, shift: nat, l: nat,
                                n: nat, ti: nat)
    requires p.Valid() && n <= ti < |p.sizes| && ForwardHolds(p, side, shift, l, n)
    requires Elsewhere(p.sizes, shift, ti, side.c, next.c) && Elsewhere(p.sizes, shift, ti, side.h, next.h)
    ensures ForwardHolds(p, next, shift, l, n)
  {
    hide Alone.Forward, Packed.Sequence, At;
    forall t: nat, b: nat | t < n && b < p.sizes[t]
      ensures t < |p.Sequence(b).xs| && RowIs(next, At(p.sizes, shift, t, b), p.Sequence(b).Forward(l, t))
    {
      StepsApart(p.sizes, shift, t, b, ti);
    }
  }

  lemma ForwardExtended<X, P, C, H>(p: Packed<X, P, C, H>, side: Side<P, C, H>, next: Side<P, C, H>, hy0: seq<H>,
                                    cy0: seq<C>, hy: seq<H>, cy: seq<C>, shift: nat, l: nat, ti: nat)
    requires p.Valid() && ti < |p.sizes| && ForwardHolds(p, side, shift, l, ti) && ForthEnds(p, hy0, cy0, l, ti)
    requires CellsSoFar(p, Forth, side, next, hy0, cy0, hy, cy, l, shift, ti, p.sizes[ti])
    ensures ForwardHolds(p, next, shift, l, ti + 1) && ForthEnds(p, hy, cy, l, ti + 1)
  {
    hide Alone.Forward, Packed.Sequence, At, ForthEnds;
    ForwardKept(p, side, next, shift, l, ti, ti);
    ForthEndsGrow(p, side, next, hy0, cy0, hy, cy, shift, l, ti);
  }

  lemma ForthEndsGrow<X, P, C, H>(p: Packed<X, P, C, H>, side: Side<P, C, H>, next: Side<P, C, H>, hy0: seq<H>,
                                  cy0: seq<C>, hy: seq<H>, cy: seq<C>, shift: nat, l: nat, ti: nat)
    requires p.Valid() && ti < |p.sizes| && ForthEnds(p, hy0, cy0, l, ti)
    requires CellsSoFar(p, Forth, side, next, hy0, cy0, hy, cy, l, shift, ti, p.sizes[ti])
    ensures ForthEnds(p, hy, cy, l, ti + 1)
  {
    hide Alone.Forward, Packed.Sequence, At, Elsewhere;
    forall b: nat | b < p.sizes[0]
      ensures p.HxRow(l, Forth, b) < |hy| && p.HxRow(l, Forth, b) < |cy| && |p.Sequence(b).xs| >= 1
      ensures State(cy[p.HxRow(l, Forth, b)], hy[p.HxRow(l, Forth, b)])
              == p.Sequence(b).Forward(l, Least(ti + 1, |p.Sequence(b).xs|) - 1)
    {
      SequenceSteps(p, ti, b);
      SequenceSteps(p, 0, b);
      if b < p.sizes[ti] {
        assert EndIs(hy, cy, p.HxRow(l, Forth, b), StateAt(p, l, Forth, ti, b));
      } else {
        assert ti >= 1;
      }
    }
  }

  lemma ReverseKept<X, P, C, H>(p: Packed<X, P, C, H>, side: Side<P, C, H>, next: Side<P, C, H>, shift: nat, l: nat,
                                t: nat)
    requires p.Valid() && t < |p.sizes| && ReverseHolds(p, side, shift, l, t + 1)
    requires Elsewhere(p.sizes, shift, t, side.c, next.c) && Elsewhere(p.sizes, shift, t, side.h, next.h)
    ensures ReverseHolds(p, next, shift, l, t + 1)
  {
    hide Alone.Reverse, Packed.Sequence, At;
    forall s: nat, b: nat | t + 1 <= s < |p.sizes| && b < p.sizes[s]
      ensures s < |p.Sequence(b).xs| && RowIs(next, At(p.sizes, shift, s, b), p.Sequence(b).Reverse(l, s))
    {
      StepsApart(p.sizes, shift, s, b, t);
    }
  }

  lemma ReverseExtended<X, P, C, H>(p: Packed<X, P, C, H>, side: Side<P, C, H>, next: Side<P, C, H>, hy0: seq<H>,
                                    cy0: seq<C>, hy: seq<H>, cy: seq<C>, shift: nat, l: nat, t: nat)
    requires p.Valid() && t < |p.sizes| && ReverseHolds(p, side, shift, l, t + 1)
    requires CellsSoFar(p, Back, side, next, hy0, cy0, hy, cy, l, shift, t, p.sizes[t])
    ensures ReverseHolds(p, next, shift, l, t) && BackEnds(p, hy, cy, l, t)
  {
    hide Alone.Forward, Alone.Reverse, Packed.Sequence, At, Elsewhere, Packed.HxShift, Packed.HxRow;
    ReverseKept(p, side, next, shift, l, t);
    forall b: nat | b < p.sizes[t]
      ensures p.HxRow(l, Back, b) < |hy| && p.HxRow(l, Back, b) < |cy| && t < |p.Sequence(b).xs|
      ensures State(cy[p.HxRow(l, Back, b)], hy[p.HxRow(l, Back, b)]) == p.Sequence(b).Reverse(l, t)
    {
      assert EndIs(hy, cy, p.HxRow(l, Back, b), StateAt(p, l, Back, t, b));
    }
  }

  /** The old cell of a row on its way back: its initial row where it begins, otherwise the row one step later. */
  lemma BackOldCell<X, P, C, H>(p: Packed<X, P, C, H>, side: Side<P, C, H>, l: nat, shift: nat, t: nat, b: nat)
    requires p.Valid() && p.bidirectional && l < p.layers && t < |p.sizes| && b < p.sizes[t] && t < |p.Sequence(b).xs|
    requires ReverseHolds(p, side, shift, l, t + 1)
    ensures if t + 1 < |p.sizes| && b < p.sizes[t + 1]
            then At(p.sizes, shift, t + 1, b) < |side.c|
              && BackC(p, l, t, b) == Some(side.c[At(p.sizes, shift, t + 1, b)])
            else BackC(p, l, t, b) == p.StartC(b)(l, Back)
  {
    hide Packed.StartC, Packed.Sequence, At, Alone.Reverse;
    BackStarts(p, l, t, if t + 1 < |p.sizes| then p.sizes[t + 1] else 0);
    if t + 1 < |p.sizes| && b < p.sizes[t + 1] { SequenceSteps(p, t + 1, b); }
  }

  class Workspace<P, C, H> {
    var forth: Side<P, C, H>
    var back: Side<P, C, H>
    var hy: seq<H>
    var cy: seq<C>

    /** The hidden product of the forward direction: from the initial rows first, then from the running ones. */
    method ForthHidden<X>(p: Packed<X, P, C, H>, l: nat, shift: nat, hxShift: nat, bacc: nat, ti: nat)
      requires p.Valid() && l < p.layers && ti < |p.sizes| && hxShift == p.HxShift(l) && bacc == Offset(p.sizes, ti)
      requires PreHolds(p, forth, shift, l, Forth, ti, |p.sizes|)
      requires shift + Rows(p.sizes) <= |forth.pre| && |hy| == p.layers * p.Turns() * p.sizes[0]
      requires ForthEnds(p, hy, cy, l, ti)
      modifies this`forth
      ensures forth == old(forth).(pre := forth.pre) && |forth.pre| == old(|forth.pre|)
      ensures Elsewhere(p.sizes, shift, ti, old(forth.pre), forth.pre)
      ensures ForthGates(p, forth, shift, l, ti)
    {
      hide Alone.Pre, Alone.Forward, Packed.Sequence, Packed.StartH, Packed.HxShift, PreHolds, ForthGates, Net.Gates;
      hide Offset;
      var n := p.sizes[ti];
      OffsetGrows(p.sizes, ti, |p.sizes|);
      HxFits(p, l, n);
      if ti == 0 {
        if p.hx.Some? {
          var next := AddHidden(p.net, l, Forth, forth.pre, shift + bacc, n, p.hx.value, hxShift);
          ForthStarts(p, l);
          ForthAdded(p, forth, next, l, shift, ti, p.hx.value, hxShift);
          forth := forth.(pre := next);
        } else {
          ForthWithout(p, forth, shift, l);
        }
      } else {
        var next := AddHidden(p.net, l, Forth, forth.pre, shift + bacc, n, hy, hxShift);
        ForthRuns(p, hy, cy, l, ti);
        ForthAdded(p, forth, next, l, shift, ti, hy, hxShift);
        forth := forth.(pre := next);
      }
    }

    method ForthOldCell<X>(p: Packed<X, P, C, H>, l: nat, shift: nat, hxShift: nat, bacc: nat, ti: nat, bs: nat)
      returns (old_c: Option<C>)
      requires p.Valid() && l < p.layers && ti < |p.sizes| && hxShift == p.HxShift(l) && bacc == Offset(p.sizes, ti)
      requires bs < p.sizes[ti]
      requires ti < |p.Sequence(bs).xs| && ForwardHolds(p, forth, shift, l, ti)
      ensures old_c == ForthC(p, l, ti, bs)
    {
      hide Alone.Forward, Packed.Sequence, Packed.StartC, Packed.HxShift;
      if ti == 0 {
        HxInside(p, l, Forth, bs);
        old_c := if p.cx.Some? then Some(p.cx.value[hxShift + bs]) else None;
      } else {
        assert bs < p.sizes[ti - 1] && At(p.sizes, shift, ti - 1, bs) == shift + (bacc - p.sizes[ti - 1]) + bs;
        old_c := Some(forth.c[shift + (bacc - p.sizes[ti - 1]) + bs]);
      }
    }

    /** One row of the forward direction at time `ti`. */
    method ForthCell<X>(p: Packed<X, P, C, H>, l: nat, shift: nat, hxShift: nat, bacc: nat, ti: nat, bs: nat)
      requires p.Valid() && l < p.layers && ti < |p.sizes| && hxShift == p.HxShift(l) && bacc == Offset(p.sizes, ti)
      requires bs < p.sizes[ti]
      requires Sized(forth, |forth.pre|) && shift + Rows(p.sizes) <= |forth.pre|
      requires |hy| == |cy| == p.layers * p.Turns() * p.sizes[0]
      requires ForthGates(p, forth, shift, l, ti) && ForwardHolds(p, forth, shift, l, ti)
      modifies this
      ensures ti < |p.Sequence(bs).xs|
      ensures RowWritten(old(forth), forth, At(p.sizes, shift, ti, bs), p.Sequence(bs).Forward(l, ti))
      ensures EndWritten(old(hy), old(cy), hy, cy, p.HxRow(l, Forth, bs), p.Sequence(bs).Forward(l, ti))
      ensures back == old(back)
    {
      hide Alone.Pre, Alone.Forward, Packed.Sequence, Packed.StartH, Packed.StartC, Packed.HxShift, Net.Gates, ForthC;
      hide ForthH;
      SequenceSteps(p, ti, bs);
      RowInside(p.sizes, ti, bs);
      HxInside(p, l, Forth, bs);
      var row := shift + bacc + bs;
      var old_c := ForthOldCell(p, l, shift, hxShift, bacc, ti, bs);
      ForwardIs(p, l, ti, bs);
      var c := p.net.cell(forth.pre[row], old_c);
      var h := p.net.out(forth.pre[row], c);
      forth := forth.(c := forth.c[row := c], h := forth.h[row := h]);
      cy := cy[hxShift + bs := c];
      hy := hy[hxShift + bs := h];
    }

    method ForthCells<X>(p: Packed<X, P, C, H>, l: nat, shift: nat, hxShift: nat, bacc: nat, ti: nat)
      requires p.Valid() && l < p.layers && ti < |p.sizes| && hxShift == p.HxShift(l) && bacc == Offset(p.sizes, ti)
      requires Sized(forth, |forth.pre|) && shift + Rows(p.sizes) <= |forth.pre|
      requires |hy| == |cy| == p.layers * p.Turns() * p.sizes[0]
      requires ForthGates(p, forth, shift, l, ti) && ForwardHolds(p, forth, shift, l, ti) && ForthEnds(p, hy, cy, l, ti)
      modifies this
      ensures back == old(back)
      ensures CellsSoFar(p, Forth, old(forth), forth, old(hy), old(cy), hy, cy, l, shift, ti, p.sizes[ti])
      ensures ForwardHolds(p, forth, shift, l, ti + 1) && ForthEnds(p, hy, cy, l, ti + 1)
    {
      hide Alone.Pre, Alone.Forward, Alone.Reverse, Packed.Sequence, Packed.HxShift, Packed.HxRow, Net.Gates, At;
      hide ForwardHolds, ForthEnds;
      for bs := 0 to p.sizes[ti]
        invariant back == old(back)
        invariant CellsSoFar(p, Forth, old(forth), forth, old(hy), old(cy), hy, cy, l, shift, ti, bs)
      {
        ForwardKept(p, old(forth), forth, shift, l, ti, ti);
        ghost var side, hy0, cy0 := forth, hy, cy;
        ForthCell(p, l, shift, hxShift, bacc, ti, bs);
        CellWritten(p, Forth, old(forth), side, forth, old(hy), old(cy), hy0, cy0, hy, cy, l, shift, ti, bs);
      }
      ForwardExtended(p, old(forth), forth, old(hy), old(cy), hy, cy, shift, l, ti);
    }

    /** The reverse direction's first turn: every row begins. */
    method BackHiddenFirst<X>(p: Packed<X, P, C, H>, l: nat, shift: nat, hxShift: nat, baccbi: nat, t: nat)
      requires p.Valid() && t == |p.sizes| - 1
      requires p.bidirectional && l < p.layers && hxShift == p.HxShift(l) && baccbi == Offset(p.sizes, t)
      requires PreHolds(p, back, shift, l, Back, 0, t + 1)
      requires shift + Rows(p.sizes) <= |back.pre|
      modifies this`back
      ensures back == old(back).(pre := back.pre) && |back.pre| == old(|back.pre|)
      ensures Elsewhere(p.sizes, shift, t, old(back.pre), back.pre)
      ensures BackGates(p, back, shift, l, t)
    {
      hide Alone.Pre, Alone.Reverse, Packed.Sequence, Packed.StartH, Packed.HxShift, PreHolds, BackGates, Net.Gates;
      hide Offset;
      OffsetGrows(p.sizes, t, |p.sizes|);
      HxBackFits(p, l, p.sizes[t]);
      BackStarts(p, l, t, 0);
      ghost var before := back;
      if p.hx.Some? {
        var next := AddHidden(p.net, l, Back, back.pre, shift + baccbi, p.sizes[t], p.hx.value, hxShift + p.sizes[0]);
        back := back.(pre := next);
      }
      ghost var none: seq<H> := [];
      BackAdded(p, before, back.pre, back.pre, l, shift, t, 0, none, 0);
    }

    /** Its later turns: rows that begin here take the initial rows, the others the running ones. */
    method BackHiddenNext<X>(p: Packed<X, P, C, H>, l: nat, shift: nat, hxShift: nat, baccbi: nat, t: nat)
      requires p.Valid() && t + 1 < |p.sizes|
      requires p.bidirectional && l < p.layers && hxShift == p.HxShift(l) && baccbi == Offset(p.sizes, t)
      requires PreHolds(p, back, shift, l, Back, 0, t + 1)
      requires shift + Rows(p.sizes) <= |back.pre|
      requires |hy| == p.layers * p.Turns() * p.sizes[0] && BackEnds(p, hy, cy, l, t + 1)
      modifies this`back
      ensures back == old(back).(pre := back.pre) && |back.pre| == old(|back.pre|)
      ensures Elsewhere(p.sizes, shift, t, old(back.pre), back.pre)
      ensures BackGates(p, back, shift, l, t)
    {
      hide Alone.Pre, Alone.Reverse, Packed.Sequence, Packed.StartH, Packed.HxShift, PreHolds, BackGates, Net.Gates;
      hide Offset;
      OffsetGrows(p.sizes, t, |p.sizes|);
      HxBackFits(p, l, p.sizes[t]);
      var going, hxBack := p.sizes[t + 1], hxShift + p.sizes[0];
      BackStarts(p, l, t, going);
      ghost var before := back;
      if p.hx.Some? && p.sizes[t] > going {
        var next := AddHidden(p.net, l, Back, back.pre, shift + (baccbi + going), p.sizes[t] - going, p.hx.value,
                              hxBack + going);
        back := back.(pre := next);
      }
      ghost var middle := back.pre;
      BackRuns(p, hy, cy, l, t);
      var next := AddHidden(p.net, l, Back, back.pre, shift + baccbi, going, hy, hxBack);
      back := back.(pre := next);
      BackAdded(p, before, middle, back.pre, l, shift, t, going, hy, hxBack);
    }

    method BackOld<X>(p: Packed<X, P, C, H>, l: nat, shift: nat, hxShift: nat, baccbi: nat, t: nat, bs: nat)
      returns (old_c: Option<C>)
      requires p.Valid() && p.bidirectional && l < p.layers && t < |p.sizes| && bs < p.sizes[t]
      requires hxShift == p.HxShift(l) && baccbi == Offset(p.sizes, t)
      requires t < |p.Sequence(bs).xs| && ReverseHolds(p, back, shift, l, t + 1)
      ensures old_c == BackC(p, l, t, bs)
    {
      hide Alone.Reverse, Packed.Sequence, Packed.StartC, Packed.HxShift, BackC;
      HxInside(p, l, Back, bs);
      BackOldCell(p, back, l, shift, t, bs);
      old_c := None;
      if t == |p.sizes| - 1 {
        if p.cx.Some? { old_c := Some(p.cx.value[hxShift + p.sizes[0] + bs]); }
      } else {
        if p.cx.Some? && p.sizes[t] > p.sizes[t + 1] {
          if bs >= p.sizes[t + 1] { old_c := Some(p.cx.value[hxShift + p.sizes[0] + bs]); }
        }
        if bs < p.sizes[t + 1] {
          assert At(p.sizes, shift, t + 1, bs) == shift + (baccbi + p.sizes[t]) + bs;
          old_c := Some(back.c[shift + (baccbi + p.sizes[t]) + bs]);
        }
      }
    }

    /** One row of the reverse direction at time `t`. */
    method BackCell<X>(p: Packed<X, P, C, H>, l: nat, shift: nat, hxShift: nat, baccbi: nat, t: nat, bs: nat)
      requires p.Valid() && p.bidirectional && l < p.layers && t < |p.sizes| && bs < p.sizes[t]
      requires hxShift == p.HxShift(l) && baccbi == Offset(p.sizes, t)
      requires Sized(back, |back.pre|) && shift + Rows(p.sizes) <= |back.pre|
      requires |hy| == |cy| == p.layers * p.Turns() * p.sizes[0]
      requires BackGates(p, back, shift, l, t) && ReverseHolds(p, back, shift, l, t + 1)
      modifies this
      ensures t < |p.Sequence(bs).xs|
      ensures RowWritten(old(back), back, At(p.sizes, shift, t, bs), p.Sequence(bs).Reverse(l, t))
      ensures EndWritten(old(hy), old(cy), hy, cy, p.HxRow(l, Back, bs), p.Sequence(bs).Reverse(l, t))
      ensures forth == old(forth)
    {
      hide Alone.Pre, Alone.Reverse, Packed.Sequence, Packed.StartH, Packed.StartC, Packed.HxShift, Net.Gates, BackC;
      hide BackH;
      SequenceSteps(p, t, bs);
      RowInside(p.sizes, t, bs);
      HxInside(p, l, Back, bs);
      var row := shift + baccbi + bs;
      var old_c := BackOld(p, l, shift, hxShift, baccbi, t, bs);
      ReverseIs(p, l, t, bs);
      var c := p.net.cell(back.pre[row], old_c);
      var h := p.net.out(back.pre[row], c);
      back := back.(c := back.c[row := c], h := back.h[row := h]);
      cy := cy[hxShift + p.sizes[0] + bs := c];
      hy := hy[hxShift + p.sizes[0] + bs := h];
    }

    method BackCells<X>(p: Packed<X, P, C, H>, l: nat, shift: nat, hxShift: nat, baccbi: nat, t: nat)
      requires p.Valid() && p.bidirectional && l < p.layers && t < |p.sizes| && hxShift == p.HxShift(l)
      requires baccbi == Offset(p.sizes, t)
      requires Sized(back, |back.pre|) && shift + Rows(p.sizes) <= |back.pre|
      requires |hy| == |cy| == p.layers * p.Turns() * p.sizes[0]
      requires BackGates(p, back, shift, l, t) && ReverseHolds(p, back, shift, l, t + 1)
      modifies this
      ensures forth == old(forth)
      ensures CellsSoFar(p, Back, old(back), back, old(hy), old(cy), hy, cy, l, shift, t, p.sizes[t])
      ensures ReverseHolds(p, back, shift, l, t) && BackEnds(p, hy, cy, l, t)
    {
      hide Alone.Pre, Alone.Forward, Alone.Reverse, Packed.Sequence, Packed.HxShift, Packed.HxRow, Net.Gates, At;
      hide ReverseHolds, BackEnds;
      for bs := 0 to p.sizes[t]
        invariant forth == old(forth) && CellsSoFar(p, Back, old(back), back, old(hy), old(cy), hy, cy, l, shift, t, bs)
      {
        ReverseKept(p, old(back), back, shift, l, t);
        ghost var side, hy0, cy0 := back, hy, cy;
        BackCell(p, l, shift, hxShift, baccbi, t, bs);
        CellWritten(p, Back, old(back), side, back, old(hy), old(cy), hy0, cy0, hy, cy, l, shift, t, bs);
      }
      ReverseExtended(p, old(back), back, old(hy), old(cy), hy, cy, shift, l, t);
    }
  }

  lemma HxFits<X, P, C, H>(p: Packed<X, P, C, H>, l: nat, n: nat)
    requires p.Valid() && l < p.layers && n <= p.sizes[0]
    ensures p.HxShift(l) + n <= p.layers * p.Turns() * p.sizes[0]
  {
    if n > 0 { HxWithin(p.layers, p.Turns(), p.sizes[0], l, n - 1); }
    else { assert l * (p.Turns() * p.sizes[0]) <= p.layers * (p.Turns() * p.sizes[0]); }
  }

  lemma ForthStarts<X, P, C, H>(p: Packed<X, P, C, H>, l: nat)
    requires p.Valid() && l < p.layers && p.hx.Some?
    ensures p.HxShift(l) + p.sizes[0] <= |p.hx.value|
    ensures forall b: nat :: b < p.sizes[0] ==>
              0 < |p.Sequence(b).xs| && ForthH(p, l, 0, b) == Some(p.hx.value[p.HxShift(l) + b])
  {
    hide Packed.Sequence, Packed.StartH, Packed.HxShift;
    HxFits(p, l, p.sizes[0]);
    forall b: nat | b < p.sizes[0]
      ensures 0 < |p.Sequence(b).xs| && ForthH(p, l, 0, b) == Some(p.hx.value[p.HxShift(l) + b])
    {
      SequenceSteps(p, 0, b);
      HxInside(p, l, Forth, b);
    }
  }

  lemma ForthWithout<X, P, C, H>(p: Packed<X, P, C, H>, side: Side<P, C, H>, shift: nat, l: nat)
    requires p.Valid() && l < p.layers && p.hx.None? && PreHolds(p, side, shift, l, Forth, 0, |p.sizes|)
    ensures ForthGates(p, side, shift, l, 0)
  {
    hide Packed.Sequence, Alone.Pre, Packed.StartH;
    forall b: nat | b < p.sizes[0] ensures 0 < |p.Sequence(b).xs| && ForthH(p, l, 0, b) == None {
      SequenceSteps(p, 0, b);
      HxInside(p, l, Forth, b);
    }
  }

  /** The running rows hold the states of the step before for everyone who goes on. */
  lemma ForthRuns<X, P, C, H>(p: Packed<X, P, C, H>, hy: seq<H>, cy: seq<C>, l: nat, ti: nat)
    requires p.Valid() && 1 <= ti < |p.sizes| && ForthEnds(p, hy, cy, l, ti)
    ensures forall b: nat :: b < p.sizes[ti] ==>
              ti < |p.Sequence(b).xs| && p.HxShift(l) + b < |hy| && ForthH(p, l, ti, b) == Some(hy[p.HxShift(l) + b])
  {
    hide Packed.Sequence, Alone.Forward;
    forall b: nat | b < p.sizes[ti]
      ensures ti < |p.Sequence(b).xs| && p.HxShift(l) + b < |hy| && ForthH(p, l, ti, b) == Some(hy[p.HxShift(l) + b])
    {
      SequenceSteps(p, ti, b);
      assert b < p.sizes[0] && p.HxRow(l, Forth, b) == p.HxShift(l) + b;
      assert Least(ti, |p.Sequence(b).xs|) == ti;
      assert State(cy[p.HxRow(l, Forth, b)], hy[p.HxRow(l, Forth, b)]) == p.Sequence(b).Forward(l, ti - 1);
    }
  }
}
