/** The whole packed forward pass, layer by layer, against running every sequence alone. */
module LstmRun {
  import opened LstmPacking
  import opened LstmAlone
  import opened LstmForward

  ghost predicate SameOutside<T>(before: seq<T>, after: seq<T>, lo: nat, hi: nat) {
    |after| == |before| && forall q :: 0 <= q < |after| && !(lo <= q < hi) ==> after[q] == before[q]
  }

  ghost predicate Fits<X, P, C, H>(p: Packed<X, P, C, H>, forth: Side<P, C, H>, back: Side<P, C, H>, hy: seq<H>,
                                   cy: seq<C>, shift: nat)
    requires p.Valid()
  {
    && Sized(forth, |forth.pre|) && Sized(back, |forth.pre|) && shift + Rows(p.sizes) <= |forth.pre|
    && |hy| == |cy| == p.layers * p.Turns() * p.sizes[0]
  }

  /** What holds at the start of turn `ti`: forth up to `ti`, back down to `|sizes| - ti`. */
  ghost predicate Turning<X, P, C, H>(p: Packed<X, P, C, H>, forth: Side<P, C, H>, back: Side<P, C, H>, hy: seq<H>,
                                      cy: seq<C>, shift: nat, l: nat, ti: nat)
    requires p.Valid() && ti <= |p.sizes|
  {
    && PreHolds(p, forth, shift, l, Forth, ti, |p.sizes|) && ForwardHolds(p, forth, shift, l, ti)
       && ForthEnds(p, hy, cy, l, ti)
    && (p.bidirectional ==>
          PreHolds(p, back, shift, l, Back, 0, |p.sizes| - ti) && ReverseHolds(p, back, shift, l, |p.sizes| - ti)
          && BackEnds(p, hy, cy, l, |p.sizes| - ti))
  }

  /** Only this layer's rows have changed. */
  ghost predicate LayerOnly<X, P, C, H>(p: Packed<X, P, C, H>, forth0: Side<P, C, H>, forth: Side<P, C, H>,
                                        back0: Side<P, C, H>, back: Side<P, C, H>, hy0: seq<H>, hy: seq<H>, cy0: seq<C>,
                                        cy: seq<C>, shift: nat, l: nat)
    requires p.Valid()
  {
    && SameOutside(forth0.c, forth.c, shift, shift + Rows(p.sizes))
       && SameOutside(forth0.h, forth.h, shift, shift + Rows(p.sizes))
    && SameOutside(back0.c, back.c, shift, shift + Rows(p.sizes))
       && SameOutside(back0.h, back.h, shift, shift + Rows(p.sizes))
    && SameOutside(hy0, hy, p.HxShift(l), p.HxShift(l + 1)) && SameOutside(cy0, cy, p.HxShift(l), p.HxShift(l + 1))
  }

  lemma StepInLayer(sizes: seq<nat>, shift: nat, t: nat)
    requires t < |sizes|
    ensures shift <= At(sizes, shift, t, 0) <= At(sizes, shift, t, sizes[t]) <= shift + Rows(sizes)
  {
    OffsetGrows(sizes, t, |sizes|);
  }

  lemma EndsInLayer<X, P, C, H>(p: Packed<X, P, C, H>, l: nat, d: Direction, n: nat)
    requires p.Valid() && n <= p.sizes[0] && (d == Back ==> p.bidirectional)
    ensures p.HxShift(l) <= p.HxRow(l, d, 0) <= p.HxRow(l, d, n) <= p.HxShift(l + 1)
  {
    assert (l + 1) * p.Turns() * p.sizes[0] == l * p.Turns() * p.sizes[0] + p.Turns() * p.sizes[0] by {
      NextShift(l, p.Turns(), p.sizes[0]);
    }
  }

  lemma NextShift(l: nat, turns: nat, n: nat)
    ensures (l + 1) * turns * n == l * turns * n + turns * n
  {
    assert (l + 1) * turns == l * turns + turns;
  }

  /** Rows written in one time step leave everything outside the layer alone. */
  lemma CellsInLayer<X, P, C, H>(p: Packed<X, P, C, H>, d: Direction, side0: Side<P, C, H>, side: Side<P, C, H>,
                                 hy0: seq<H>, cy0: seq<C>, hy: seq<H>, cy: seq<C>, l: nat, shift: nat, t: nat)
    requires p.Valid() && t < |p.sizes| && (d == Back ==> p.bidirectional)
    requires CellsSoFar(p, d, side0, side, hy0, cy0, hy, cy, l, shift, t, p.sizes[t])
    ensures SameOutside(side0.c, side.c, shift, shift + Rows(p.sizes))
    ensures SameOutside(side0.h, side.h, shift, shift + Rows(p.sizes))
    ensures SameOutside(hy0, hy, p.HxShift(l), p.HxShift(l + 1)) && SameOutside(cy0, cy, p.HxShift(l), p.HxShift(l + 1))
  {
    StepInLayer(p.sizes, shift, t);
    EndsInLayer(p, l, d, p.sizes[t]);
    hide Packed.HxShift, Packed.HxRow, Packed.Sequence, StateAt, At;
  }

  /** The two directions keep their running rows apart. */
  lemma BackEndsKept<X, P, C, H>(p: Packed<X, P, C, H>, side0: Side<P, C, H>, side: Side<P, C, H>, hy0: seq<H>,
                                 cy0: seq<C>, hy: seq<H>, cy: seq<C>, l: nat, shift: nat, t: nat, n: nat)
    requires p.Valid() && t < |p.sizes| && BackEnds(p, hy0, cy0, l, n)
    requires CellsSoFar(p, Forth, side0, side, hy0, cy0, hy, cy, l, shift, t, p.sizes[t])
    ensures BackEnds(p, hy, cy, l, n)
  {
    hide Packed.HxShift, Packed.Sequence, Alone.Reverse, StateAt, At;
  }

  lemma ForthEndsKept<X, P, C, H>(p: Packed<X, P, C, H>, side0: Side<P, C, H>, side: Side<P, C, H>, hy0: seq<H>,
                                  cy0: seq<C>, hy: seq<H>, cy: seq<C>, l: nat, shift: nat, t: nat, n: nat)
    requires p.Valid() && t < |p.sizes| && ForthEnds(p, hy0, cy0, l, n)
    requires CellsSoFar(p, Back, side0, side, hy0, cy0, hy, cy, l, shift, t, p.sizes[t])
    ensures ForthEnds(p, hy, cy, l, n)
  {
    hide Packed.HxShift, Packed.Sequence, Alone.Forward, StateAt, At;
  }

  lemma PreOnly<X, P, C, H>(p: Packed<X, P, C, H>, side: Side<P, C, H>, next: Side<P, C, H>, shift: nat, l: nat,
                            d: Direction, lo: nat, hi: nat)
    requires p.Valid() && hi <= |p.sizes| && next.pre == side.pre && PreHolds(p, side, shift, l, d, lo, hi)
    ensures PreHolds(p, next, shift, l, d, lo, hi)
  {
    hide Packed.Sequence, Alone.Pre, At;
  }

  lemma PreFewer<X, P, C, H>(p: Packed<X, P, C, H>, side: Side<P, C, H>, shift: nat, l: nat, d: Direction, lo: nat,
                             hi: nat, lo': nat, hi': nat)
    requires p.Valid() && lo <= lo' && hi' <= hi <= |p.sizes| && PreHolds(p, side, shift, l, d, lo, hi)
    ensures PreHolds(p, side, shift, l, d, lo', hi')
  {
    hide Packed.Sequence, Alone.Pre, At;
  }

  /** One forward time step. */
  method ForthTurn<X, P, C, H>(ws: Workspace<P, C, H>, p: Packed<X, P, C, H>, l: nat, shift: nat, hxShift: nat,
                               bacc: nat, ti: nat)
    requires p.Valid() && l < p.layers && ti < |p.sizes| && hxShift == p.HxShift(l) && bacc == Offset(p.sizes, ti)
    requires Fits(p, ws.forth, ws.back, ws.hy, ws.cy, shift) && ForthGates(p, ws.forth, shift, l, ti)
    requires PreHolds(p, ws.forth, shift, l, Forth, ti + 1, |p.sizes|) && ForwardHolds(p, ws.forth, shift, l, ti)
    requires ForthEnds(p, ws.hy, ws.cy, l, ti) && (p.bidirectional ==> BackEnds(p, ws.hy, ws.cy, l, |p.sizes| - ti))
    modifies ws
    ensures ws.back == old(ws.back) && ws.forth.pre == old(ws.forth.pre)
    ensures Fits(p, ws.forth, ws.back, ws.hy, ws.cy, shift)
    ensures PreHolds(p, ws.forth, shift, l, Forth, ti + 1, |p.sizes|) && ForwardHolds(p, ws.forth, shift, l, ti + 1)
    ensures ForthEnds(p, ws.hy, ws.cy, l, ti + 1) && (p.bidirectional ==> BackEnds(p, ws.hy, ws.cy, l, |p.sizes| - ti))
    ensures LayerOnly(p, old(ws.forth), ws.forth, old(ws.back), ws.back, old(ws.hy), ws.hy, old(ws.cy), ws.cy, shift, l)
  {
    hide PreHolds, ForwardHolds, ForthEnds, BackEnds, ForthGates, Packed.HxShift, Packed.Sequence, StateAt, Offset;
    ws.ForthCells(p, l, shift, hxShift, bacc, ti);
    CellsInLayer(p, Forth, old(ws.forth), ws.forth, old(ws.hy), old(ws.cy), ws.hy, ws.cy, l, shift, ti);
    if p.bidirectional { BackEndsKept(p, old(ws.forth), ws.forth, old(ws.hy), old(ws.cy), ws.hy, ws.cy, l, shift, ti,
                                      |p.sizes| - ti); }
    PreOnly(p, old(ws.forth), ws.forth, shift, l, Forth, ti + 1, |p.sizes|);
  }

  /** One reverse time step. */
  method BackTurn<X, P, C, H>(ws: Workspace<P, C, H>, p: Packed<X, P, C, H>, l: nat, shift: nat, hxShift: nat,
                              baccbi: nat, t: nat)
    requires p.Valid() && p.bidirectional && l < p.layers && t < |p.sizes| && hxShift == p.HxShift(l)
    requires baccbi == Offset(p.sizes, t)
    requires Fits(p, ws.forth, ws.back, ws.hy, ws.cy, shift) && BackGates(p, ws.back, shift, l, t)
    requires PreHolds(p, ws.back, shift, l, Back, 0, t) && ReverseHolds(p, ws.back, shift, l, t + 1)
    requires ForthEnds(p, ws.hy, ws.cy, l, |p.sizes| - t)
    modifies ws
    ensures ws.forth == old(ws.forth) && Fits(p, ws.forth, ws.back, ws.hy, ws.cy, shift)
    ensures PreHolds(p, ws.back, shift, l, Back, 0, t) && ReverseHolds(p, ws.back, shift, l, t)
    ensures ForthEnds(p, ws.hy, ws.cy, l, |p.sizes| - t) && BackEnds(p, ws.hy, ws.cy, l, t)
    ensures LayerOnly(p, old(ws.forth), ws.forth, old(ws.back), ws.back, old(ws.hy), ws.hy, old(ws.cy), ws.cy, shift, l)
  {
    hide PreHolds, ReverseHolds, ForthEnds, BackEnds, BackGates, Packed.HxShift, Packed.Sequence, StateAt, Offset;
    ws.BackCells(p, l, shift, hxShift, baccbi, t);
    CellsInLayer(p, Back, old(ws.back), ws.back, old(ws.hy), old(ws.cy), ws.hy, ws.cy, l, shift, t);
    ForthEndsKept(p, old(ws.back), ws.back, old(ws.hy), old(ws.cy), ws.hy, ws.cy, l, shift, t, |p.sizes| - t);
    PreOnly(p, old(ws.back), ws.back, shift, l, Back, 0, t);
  }

  /** The hidden products of one turn, forth and back. */
  method HiddenTurn<X, P, C, H>(ws: Workspace<P, C, H>, p: Packed<X, P, C, H>, l: nat, shift: nat, hxShift: nat,
                                bacc: nat, baccbi: nat, ti: nat)
    requires p.Valid() && l < p.layers && ti < |p.sizes| && hxShift == p.HxShift(l)
    requires bacc == Offset(p.sizes, ti) && baccbi == Offset(p.sizes, |p.sizes| - 1 - ti)
    requires Fits(p, ws.forth, ws.back, ws.hy, ws.cy, shift)
    requires Turning(p, ws.forth, ws.back, ws.hy, ws.cy, shift, l, ti)
    modifies ws
    ensures ws.hy == old(ws.hy) && ws.cy == old(ws.cy)
    ensures ws.forth == old(ws.forth).(pre := ws.forth.pre) && ws.back == old(ws.back).(pre := ws.back.pre)
    ensures Fits(p, ws.forth, ws.back, ws.hy, ws.cy, shift)
    ensures ForthGates(p, ws.forth, shift, l, ti) && PreHolds(p, ws.forth, shift, l, Forth, ti + 1, |p.sizes|)
    ensures p.bidirectional ==>
              BackGates(p, ws.back, shift, l, |p.sizes| - 1 - ti)
                && PreHolds(p, ws.back, shift, l, Back, 0, |p.sizes| - 1 - ti)
  {
    hide PreHolds, ForwardHolds, ReverseHolds, ForthEnds, BackEnds, ForthGates, BackGates, Packed.HxShift;
    hide Packed.Sequence, Offset, Elsewhere;
    ghost var forth, back := ws.forth, ws.back;
    ws.ForthHidden(p, l, shift, hxShift, bacc, ti);
    PreFewer(p, forth, shift, l, Forth, ti, |p.sizes|, ti + 1, |p.sizes|);
    PreKept(p, forth, ws.forth.pre, l, Forth, shift, ti + 1, |p.sizes|, ti);
    if p.bidirectional {
      var t := |p.sizes| - 1 - ti;
      if ti == 0 {
        ws.BackHiddenFirst(p, l, shift, hxShift, baccbi, t);
      } else {
        ws.BackHiddenNext(p, l, shift, hxShift, baccbi, t);
      }
      PreFewer(p, back, shift, l, Back, 0, t + 1, 0, t);
      PreKept(p, back, ws.back.pre, l, Back, shift, 0, t, t);
    }
  }

  lemma StatesOnly<X, P, C, H>(p: Packed<X, P, C, H>, side: Side<P, C, H>, pre: seq<P>, shift: nat, l: nat, n: nat)
    requires p.Valid() && n <= |p.sizes|
    ensures ForwardHolds(p, side, shift, l, n) ==> ForwardHolds(p, side.(pre := pre), shift, l, n)
    ensures ReverseHolds(p, side, shift, l, n) ==> ReverseHolds(p, side.(pre := pre), shift, l, n)
  {
    hide Packed.Sequence, Alone.Forward, Alone.Reverse, At;
  }

  /** One turn of the time loop. */
  method Turn<X, P, C, H>(ws: Workspace<P, C, H>, p: Packed<X, P, C, H>, l: nat, shift: nat, hxShift: nat, bacc: nat,
                          baccbi: nat, ti: nat)
    requires p.Valid() && l < p.layers && ti < |p.sizes| && hxShift == p.HxShift(l)
    requires bacc == Offset(p.sizes, ti) && baccbi == Offset(p.sizes, |p.sizes| - 1 - ti)
    requires Fits(p, ws.forth, ws.back, ws.hy, ws.cy, shift)
    requires Turning(p, ws.forth, ws.back, ws.hy, ws.cy, shift, l, ti)
    modifies ws
    ensures Fits(p, ws.forth, ws.back, ws.hy, ws.cy, shift)
    ensures Turning(p, ws.forth, ws.back, ws.hy, ws.cy, shift, l, ti + 1)
    ensures LayerOnly(p, old(ws.forth), ws.forth, old(ws.back), ws.back, old(ws.hy), ws.hy, old(ws.cy), ws.cy, shift, l)
  {
    hide PreHolds, ForwardHolds, ReverseHolds, ForthEnds, BackEnds, ForthGates, BackGates, Packed.HxShift;
    hide Packed.Sequence, Offset;
    var t := |p.sizes| - 1 - ti;
    HiddenTurn(ws, p, l, shift, hxShift, bacc, baccbi, ti);
    StatesOnly(p, old(ws.forth), ws.forth.pre, shift, l, ti);
    StatesOnly(p, old(ws.back), ws.back.pre, shift, l, t + 1);
    CellsTurn(ws, p, l, shift, hxShift, bacc, baccbi, ti);
  }

  /** The cells of one turn, forth and back. */
  method CellsTurn<X, P, C, H>(ws: Workspace<P, C, H>, p: Packed<X, P, C, H>, l: nat, shift: nat, hxShift: nat,
                               bacc: nat, baccbi: nat, ti: nat)
    requires p.Valid() && l < p.layers && ti < |p.sizes| && hxShift == p.HxShift(l)
    requires bacc == Offset(p.sizes, ti) && baccbi == Offset(p.sizes, |p.sizes| - 1 - ti)
    requires Fits(p, ws.forth, ws.back, ws.hy, ws.cy, shift)
    requires ForthGates(p, ws.forth, shift, l, ti) && PreHolds(p, ws.forth, shift, l, Forth, ti + 1, |p.sizes|)
    requires ForwardHolds(p, ws.forth, shift, l, ti) && ForthEnds(p, ws.hy, ws.cy, l, ti)
    requires p.bidirectional ==>
               BackGates(p, ws.back, shift, l, |p.sizes| - 1 - ti)
                 && PreHolds(p, ws.back, shift, l, Back, 0, |p.sizes| - 1 - ti)
               && ReverseHolds(p, ws.back, shift, l, |p.sizes| - ti) && BackEnds(p, ws.hy, ws.cy, l, |p.sizes| - ti)
    modifies ws
    ensures Fits(p, ws.forth, ws.back, ws.hy, ws.cy, shift)
    ensures Turning(p, ws.forth, ws.back, ws.hy, ws.cy, shift, l, ti + 1)
    ensures LayerOnly(p, old(ws.forth), ws.forth, old(ws.back), ws.back, old(ws.hy), ws.hy, old(ws.cy), ws.cy, shift, l)
  {
    hide PreHolds, ForwardHolds, ReverseHolds, ForthEnds, BackEnds, ForthGates, BackGates, Packed.HxShift;
    hide Packed.Sequence, Offset;
    var t := |p.sizes| - 1 - ti;
    ForthTurn(ws, p, l, shift, hxShift, bacc, ti);
    if p.bidirectional {
      BackTurn(ws, p, l, shift, hxShift, baccbi, t);
    }
  }

  // ---- Feeding a layer ----

  /** What row `r` of layer `l` is fed: its input, or the hidden rows at the same place of the layer below. */
  function FeedRow<X, P, C, H>(p: Packed<X, P, C, H>, forthH: seq<H>, backH: seq<H>, below: nat, l: nat,
                               r: nat): Feed<X, H>
    requires l == 0 ==> r < |p.xs|
    requires l > 0 ==> below + r < |forthH| && below + r < |backH|
  {
    if l == 0 then Input(p.xs[r])
      else Below(forthH[below + r], if p.bidirectional then Some(backH[below + r]) else None)
  }

  ghost predicate BelowHolds<X, P, C, H>(p: Packed<X, P, C, H>, forth: Side<P, C, H>, back: Side<P, C, H>, below: nat,
                                         l: nat)
    requires p.Valid()
  {
    l > 0 ==>
      ForwardHolds(p, forth, below, l - 1, |p.sizes|) && (p.bidirectional ==> ReverseHolds(p, back, below, l - 1, 0))
  }

  lemma SequenceParts<X, P, C, H>(p: Packed<X, P, C, H>, b: nat)
    requires p.Valid()
    ensures p.Sequence(b).net == p.net && p.Sequence(b).bidirectional == p.bidirectional
  {
    hide Packed.StartH, Packed.StartC;
  }

  lemma SequenceInput<X, P, C, H>(p: Packed<X, P, C, H>, t: nat, b: nat)
    requires p.Valid() && t < |p.sizes| && t < |p.Sequence(b).xs|
    ensures Offset(p.sizes, t) + b < |p.xs| && p.Sequence(b).xs[t] == p.xs[Offset(p.sizes, t) + b]
  {
    hide Packed.StartH, Packed.StartC;
    LengthIs(p.sizes, b);
    RowInside(p.sizes, t, b);
  }

  lemma FeedIs<X, P, C, H>(p: Packed<X, P, C, H>, forth: Side<P, C, H>, back: Side<P, C, H>, below: nat, l: nat, t: nat,
                           b: nat)
    requires p.Valid() && t < |p.sizes| && b < p.sizes[t] && t < |p.Sequence(b).xs|
    requires Offset(p.sizes, t) + b < Rows(p.sizes)
    requires BelowHolds(p, forth, back, below, l)
    requires l > 0 ==> below + Rows(p.sizes) <= |forth.h| && below + Rows(p.sizes) <= |back.h|
    ensures FeedRow(p, forth.h, back.h, below, l, Offset(p.sizes, t) + b) == p.Sequence(b).FeedAt(l, t)
  {
    hide Alone.Forward, Alone.Reverse, Packed.Sequence, BelowHolds;
    SequenceParts(p, b);
    if l == 0 {
      SequenceInput(p, t, b);
    } else {
      assert At(p.sizes, below, t, b) == below + (Offset(p.sizes, t) + b);
      HiddenBelow(p, forth, back, below, l, t, b);
      FeedAbove(p.Sequence(b), l, t);
    }
  }

  lemma FeedAbove<X, P, C, H>(a: Alone<X, P, C, H>, l: nat, t: nat)
    requires l > 0 && t < |a.xs|
    ensures a.FeedAt(l, t)
            == Below(a.Forward(l - 1, t).h, if a.bidirectional then Some(a.Reverse(l - 1, t).h) else None)
  {
    hide Alone.Forward, Alone.Reverse;
  }

  lemma HiddenBelow<X, P, C, H>(p: Packed<X, P, C, H>, forth: Side<P, C, H>, back: Side<P, C, H>, below: nat, l: nat,
                                t: nat, b: nat)
    requires p.Valid() && l > 0 && t < |p.sizes| && b < p.sizes[t] && t < |p.Sequence(b).xs|
    requires BelowHolds(p, forth, back, below, l)
    ensures RowIs(forth, At(p.sizes, below, t, b), p.Sequence(b).Forward(l - 1, t))
    ensures p.bidirectional ==> RowIs(back, At(p.sizes, below, t, b), p.Sequence(b).Reverse(l - 1, t))
  {
    hide Alone.Forward, Alone.Reverse, Packed.Sequence, At, RowIs;
  }

  ghost predicate Fed<X, P, C, H>(p: Packed<X, P, C, H>, pre: seq<P>, forthH: seq<H>, backH: seq<H>, below: nat,
                                  shift: nat, l: nat, d: Direction, n: nat)
    requires p.Valid() && n <= Rows(p.sizes)
    requires l > 0 ==> below + n <= |forthH| && below + n <= |backH|
  {
    forall r: nat :: r < n ==>
        shift + r < |pre| && pre[shift + r] == p.net.feed(l, d, FeedRow(p, forthH, backH, below, l, r))
  }

  lemma FedIsPre<X, P, C, H>(p: Packed<X, P, C, H>, side: Side<P, C, H>, forth: Side<P, C, H>, back: Side<P, C, H>,
                             below: nat, shift: nat, l: nat, d: Direction)
    requires p.Valid() && BelowHolds(p, forth, back, below, l)
    requires l > 0 ==> below + Rows(p.sizes) <= |forth.h| && below + Rows(p.sizes) <= |back.h|
    requires Fed(p, side.pre, forth.h, back.h, below, shift, l, d, Rows(p.sizes))
    ensures PreHolds(p, side, shift, l, d, 0, |p.sizes|)
  {
    hide Alone.FeedAt, Packed.Sequence, FeedRow, BelowHolds;
    forall t: nat, b: nat | t < |p.sizes| && b < p.sizes[t]
      ensures At(p.sizes, shift, t, b) < |side.pre| && t < |p.Sequence(b).xs|
              && side.pre[At(p.sizes, shift, t, b)] == p.Sequence(b).Pre(l, d, t)
    {
      SequenceSteps(p, t, b);
      SequenceParts(p, b);
      RowInside(p.sizes, t, b);
      FeedIs(p, forth, back, below, l, t, b);
      assert At(p.sizes, shift, t, b) == shift + (Offset(p.sizes, t) + b);
    }
  }

  /** The input product of every row of the layer, in both directions. */
  method FeedLayer<X, P, C, H>(ws: Workspace<P, C, H>, p: Packed<X, P, C, H>, l: nat, shift: nat)
    requires p.Valid() && l < p.layers && Fits(p, ws.forth, ws.back, ws.hy, ws.cy, shift)
    requires (l > 0 ==> Rows(p.sizes) <= shift)
    requires l > 0 ==> BelowHolds(p, ws.forth, ws.back, shift - Rows(p.sizes), l)
    modifies ws
    ensures ws.hy == old(ws.hy) && ws.cy == old(ws.cy)
    ensures ws.forth == old(ws.forth).(pre := ws.forth.pre) && ws.back == old(ws.back).(pre := ws.back.pre)
    ensures Fits(p, ws.forth, ws.back, ws.hy, ws.cy, shift)
    ensures PreHolds(p, ws.forth, shift, l, Forth, 0, |p.sizes|)
    ensures p.bidirectional ==> PreHolds(p, ws.back, shift, l, Back, 0, |p.sizes|)
  {
    hide ForwardHolds, ReverseHolds, PreHolds, Packed.Sequence, FeedRow, Offset;
    var below := if l > 0 then shift - Rows(p.sizes) else 0;
    ghost var forth, back := ws.forth, ws.back;
    for r := 0 to Rows(p.sizes)
      invariant ws.hy == old(ws.hy) && ws.cy == old(ws.cy)
      invariant ws.forth == forth.(pre := ws.forth.pre) && ws.back == back.(pre := ws.back.pre)
      invariant |ws.forth.pre| == |forth.pre| && |ws.back.pre| == |back.pre|
      invariant Fed(p, ws.forth.pre, forth.h, back.h, below, shift, l, Forth, r)
      invariant p.bidirectional ==> Fed(p, ws.back.pre, forth.h, back.h, below, shift, l, Back, r)
    {
      var feed := FeedRow(p, ws.forth.h, ws.back.h, below, l, r);
      ws.forth := ws.forth.(pre := ws.forth.pre[shift + r := p.net.feed(l, Forth, feed)]);
      if p.bidirectional {
        ws.back := ws.back.(pre := ws.back.pre[shift + r := p.net.feed(l, Back, feed)]);
      }
    }
    FedIsPre(p, ws.forth, forth, back, below, shift, l, Forth);
    if p.bidirectional { FedIsPre(p, ws.back, forth, back, below, shift, l, Back); }
  }

  // ---- One layer, all layers ----

  lemma LayerOnlyTrans<X, P, C, H>(p: Packed<X, P, C, H>, f0: Side<P, C, H>, f1: Side<P, C, H>, f2: Side<P, C, H>,
                                   b0: Side<P, C, H>, b1: Side<P, C, H>, b2: Side<P, C, H>, hy0: seq<H>, hy1: seq<H>,
                                   hy2: seq<H>, cy0: seq<C>, cy1: seq<C>, cy2: seq<C>, shift: nat, l: nat)
    requires p.Valid()
    requires LayerOnly(p, f0, f1, b0, b1, hy0, hy1, cy0, cy1, shift, l)
    requires LayerOnly(p, f1, f2, b1, b2, hy1, hy2, cy1, cy2, shift, l)
    ensures LayerOnly(p, f0, f2, b0, b2, hy0, hy2, cy0, cy2, shift, l)
  {
    hide Packed.HxShift, Offset;
  }

  lemma Begins<X, P, C, H>(p: Packed<X, P, C, H>, forth: Side<P, C, H>, back: Side<P, C, H>, hy: seq<H>, cy: seq<C>,
                           shift: nat, l: nat)
    requires p.Valid() && PreHolds(p, forth, shift, l, Forth, 0, |p.sizes|)
    requires p.bidirectional ==> PreHolds(p, back, shift, l, Back, 0, |p.sizes|)
    ensures Turning(p, forth, back, hy, cy, shift, l, 0)
  {
    hide PreHolds;
  }

  /** Feeds a layer and runs its time steps, `bacc` going forth over the packed rows and `baccbi` back. */
  method RunLayer<X, P, C, H>(ws: Workspace<P, C, H>, p: Packed<X, P, C, H>, l: nat, shift: nat, hxShift: nat)
    requires p.Valid() && l < p.layers && Fits(p, ws.forth, ws.back, ws.hy, ws.cy, shift)
    requires (l > 0 ==> Rows(p.sizes) <= shift)
    requires l > 0 ==> BelowHolds(p, ws.forth, ws.back, shift - Rows(p.sizes), l)
    requires hxShift == p.HxShift(l)
    modifies ws
    ensures Fits(p, ws.forth, ws.back, ws.hy, ws.cy, shift)
    ensures Turning(p, ws.forth, ws.back, ws.hy, ws.cy, shift, l, |p.sizes|)
    ensures LayerOnly(p, old(ws.forth), ws.forth, old(ws.back), ws.back, old(ws.hy), ws.hy, old(ws.cy), ws.cy, shift, l)
  {
    hide Turning, Packed.HxShift, Packed.Sequence, SameOutside;
    FeedLayer(ws, p, l, shift);
    var bacc, baccbi := 0, Rows(p.sizes);
    Begins(p, ws.forth, ws.back, ws.hy, ws.cy, shift, l);
    FeedOnly(p, old(ws.forth), ws.forth, old(ws.back), ws.back, ws.hy, ws.cy, shift, l);
    for ti := 0 to |p.sizes|
      invariant bacc == Offset(p.sizes, ti) && baccbi == Offset(p.sizes, |p.sizes| - ti)
      invariant Fits(p, ws.forth, ws.back, ws.hy, ws.cy, shift)
      invariant Turning(p, ws.forth, ws.back, ws.hy, ws.cy, shift, l, ti)
      invariant LayerOnly(p, old(ws.forth), ws.forth, old(ws.back), ws.back, old(ws.hy), ws.hy, old(ws.cy), ws.cy,
                          shift, l)
    {
      ghost var f1, b1, hy1, cy1 := ws.forth, ws.back, ws.hy, ws.cy;
      baccbi := baccbi - p.sizes[|p.sizes| - 1 - ti];
      Turn(ws, p, l, shift, hxShift, bacc, baccbi, ti);
      LayerOnlyTrans(p, old(ws.forth), f1, ws.forth, old(ws.back), b1, ws.back, old(ws.hy), hy1, ws.hy, old(ws.cy), cy1,
                     ws.cy, shift, l);
      bacc := bacc + p.sizes[ti];
    }
  }

  lemma FeedOnly<X, P, C, H>(p: Packed<X, P, C, H>, f0: Side<P, C, H>, f1: Side<P, C, H>, b0: Side<P, C, H>, b1: Side<P,
                             C, H>, hy: seq<H>, cy: seq<C>, shift: nat, l: nat)
    requires p.Valid() && f1 == f0.(pre := f1.pre) && b1 == b0.(pre := b1.pre)
    ensures LayerOnly(p, f0, f1, b0, b1, hy, hy, cy, cy, shift, l)
  {
  }

  function LayerShift(sizes: seq<nat>, l: nat): nat { l * Rows(sizes) }

  ghost predicate LayerDone<X, P, C, H>(p: Packed<X, P, C, H>, forth: Side<P, C, H>, back: Side<P, C, H>, hy: seq<H>,
                                        cy: seq<C>, l: nat)
    requires p.Valid()
  {
    Turning(p, forth, back, hy, cy, LayerShift(p.sizes, l), l, |p.sizes|)
  }

  lemma LayersApart(sizes: seq<nat>, k: nat, l: nat)
    requires k < l
    ensures LayerShift(sizes, k) + Rows(sizes) <= LayerShift(sizes, l)
  {
    assert (k + 1) * Rows(sizes) <= l * Rows(sizes);
  }

  lemma ShiftsApart<X, P, C, H>(p: Packed<X, P, C, H>, k: nat, l: nat)
    requires p.Valid() && k < l
    ensures p.HxShift(k + 1) <= p.HxShift(l)
  {
    assert (k + 1) * (p.Turns() * p.sizes[0]) <= l * (p.Turns() * p.sizes[0]);
    assert (k + 1) * p.Turns() * p.sizes[0] == (k + 1) * (p.Turns() * p.sizes[0]);
    assert l * p.Turns() * p.sizes[0] == l * (p.Turns() * p.sizes[0]);
  }

  /** A later layer leaves the rows of an earlier one alone. */
  lemma LayerKept<X, P, C, H>(p: Packed<X, P, C, H>, f0: Side<P, C, H>, f1: Side<P, C, H>, b0: Side<P, C, H>,
                              b1: Side<P, C, H>, hy0: seq<H>, hy1: seq<H>, cy0: seq<C>, cy1: seq<C>, k: nat, l: nat)
    requires p.Valid() && k < l && LayerDone(p, f0, b0, hy0, cy0, k)
    requires LayerOnly(p, f0, f1, b0, b1, hy0, hy1, cy0, cy1, LayerShift(p.sizes, l), l)
    ensures LayerDone(p, f1, b1, hy1, cy1, k)
  {
    hide Packed.Sequence, Alone.Forward, Alone.Reverse, Packed.HxShift, LayerShift, ForthEnds, BackEnds;
    LayersApart(p.sizes, k, l);
    ForwardRowsKept(p, f0, f1, k, LayerShift(p.sizes, l));
    if p.bidirectional { ReverseRowsKept(p, b0, b1, k, LayerShift(p.sizes, l)); }
    ShiftsApart(p, k, l);
    EndRowsKept(p, hy0, hy1, cy0, cy1, k, p.HxShift(l), p.HxShift(l + 1));
  }

  lemma ForwardRowsKept<X, P, C, H>(p: Packed<X, P, C, H>, f0: Side<P, C, H>, f1: Side<P, C, H>, k: nat, shift: nat)
    requires p.Valid() && LayerShift(p.sizes, k) + Rows(p.sizes) <= shift
    requires ForwardHolds(p, f0, LayerShift(p.sizes, k), k, |p.sizes|)
    requires SameOutside(f0.c, f1.c, shift, shift + Rows(p.sizes))
    requires SameOutside(f0.h, f1.h, shift, shift + Rows(p.sizes))
    ensures ForwardHolds(p, f1, LayerShift(p.sizes, k), k, |p.sizes|)
  {
    hide Packed.Sequence, Alone.Forward, At, LayerShift;
    forall t: nat, b: nat | t < |p.sizes| && b < p.sizes[t]
      ensures t < |p.Sequence(b).xs|
      ensures RowIs(f1, At(p.sizes, LayerShift(p.sizes, k), t, b), p.Sequence(b).Forward(k, t))
    {
      RowInLayer(p.sizes, LayerShift(p.sizes, k), t, b);
    }
  }

  lemma ReverseRowsKept<X, P, C, H>(p: Packed<X, P, C, H>, b0: Side<P, C, H>, b1: Side<P, C, H>, k: nat, shift: nat)
    requires p.Valid() && LayerShift(p.sizes, k) + Rows(p.sizes) <= shift
    requires ReverseHolds(p, b0, LayerShift(p.sizes, k), k, 0)
    requires SameOutside(b0.c, b1.c, shift, shift + Rows(p.sizes))
    requires SameOutside(b0.h, b1.h, shift, shift + Rows(p.sizes))
    ensures ReverseHolds(p, b1, LayerShift(p.sizes, k), k, 0)
  {
    hide Packed.Sequence, Alone.Reverse, At, LayerShift;
    forall t: nat, b: nat | t < |p.sizes| && b < p.sizes[t]
      ensures t < |p.Sequence(b).xs|
      ensures RowIs(b1, At(p.sizes, LayerShift(p.sizes, k), t, b), p.Sequence(b).Reverse(k, t))
    {
      RowInLayer(p.sizes, LayerShift(p.sizes, k), t, b);
    }
  }

  lemma RowInLayer(sizes: seq<nat>, shift: nat, t: nat, b: nat)
    requires t < |sizes| && b < sizes[t]
    ensures At(sizes, shift, t, b) < shift + Rows(sizes)
  {
    RowInside(sizes, t, b);
  }

  lemma EndRowsKept<X, P, C, H>(p: Packed<X, P, C, H>, hy0: seq<H>, hy1: seq<H>, cy0: seq<C>, cy1: seq<C>, k: nat,
                                lo: nat, hi: nat)
    requires p.Valid() && p.HxShift(k + 1) <= lo
    requires SameOutside(hy0, hy1, lo, hi) && SameOutside(cy0, cy1, lo, hi)
    ensures ForthEnds(p, hy0, cy0, k, |p.sizes|) ==> ForthEnds(p, hy1, cy1, k, |p.sizes|)
    ensures p.bidirectional && BackEnds(p, hy0, cy0, k, 0) ==> BackEnds(p, hy1, cy1, k, 0)
  {
    EndsInLayer(p, k, Forth, p.sizes[0]);
    if p.bidirectional { EndsInLayer(p, k, Back, p.sizes[0]); }
    hide Packed.Sequence, Alone.Reverse, Alone.Forward, Packed.HxShift;
  }

  lemma LayerRoom(sizes: seq<nat>, l: nat, layers: nat)
    requires l < layers
    ensures LayerShift(sizes, l) + Rows(sizes) <= LayerShift(sizes, layers)
    ensures LayerShift(sizes, l + 1) == LayerShift(sizes, l) + Rows(sizes)
  {
    assert (l + 1) * Rows(sizes) <= layers * Rows(sizes);
    assert (l + 1) * Rows(sizes) == l * Rows(sizes) + Rows(sizes);
  }

  lemma BelowIsDone<X, P, C, H>(p: Packed<X, P, C, H>, forth: Side<P, C, H>, back: Side<P, C, H>, hy: seq<H>,
                                cy: seq<C>, l: nat)
    requires p.Valid() && (l > 0 ==> LayerDone(p, forth, back, hy, cy, l - 1))
    ensures l > 0 ==> LayerShift(p.sizes, l) == LayerShift(p.sizes, l - 1) + Rows(p.sizes)
    ensures l > 0 ==> BelowHolds(p, forth, back, LayerShift(p.sizes, l - 1), l)
  {
    if l > 0 { LayerRoom(p.sizes, l - 1, l); }
    hide ForwardHolds, ReverseHolds, LayerShift;
  }

  /**
   Every packed row holds the state its own sequence has alone, and the final rows its last state in either direction.
   */
  ghost predicate MatchesAlone<X, P, C, H>(p: Packed<X, P, C, H>, forth: Side<P, C, H>, back: Side<P, C, H>, hy: seq<H>,
                                           cy: seq<C>, l: nat, b: nat)
    requires p.Valid() && b < p.sizes[0]
  {
    var a := p.Sequence(b);
    && |a.xs| >= 1
    && (forall t: nat :: t < |a.xs| ==>
        t < |p.sizes| && RowIs(forth, At(p.sizes, LayerShift(p.sizes, l), t, b), a.Forward(l, t)))
    && EndIs(hy, cy, p.HxRow(l, Forth, b), a.Forward(l, |a.xs| - 1))
    && (p.bidirectional ==>
          (forall t: nat :: t < |a.xs| ==>
           t < |p.sizes| && RowIs(back, At(p.sizes, LayerShift(p.sizes, l), t, b), a.Reverse(l, t)))
          && EndIs(hy, cy, p.HxRow(l, Back, b), a.Reverse(l, 0)))
  }

  lemma DoneMatches<X, P, C, H>(p: Packed<X, P, C, H>, forth: Side<P, C, H>, back: Side<P, C, H>, hy: seq<H>,
                                cy: seq<C>, l: nat, b: nat)
    requires p.Valid() && b < p.sizes[0] && LayerDone(p, forth, back, hy, cy, l)
    ensures MatchesAlone(p, forth, back, hy, cy, l, b)
  {
    hide Packed.Sequence, Alone.Forward, Alone.Reverse, At, LayerShift, Packed.HxShift, PreHolds;
    LengthInside(p, b);
    SequenceSteps(p, 0, b);
    forall t: nat | t < |p.sizes| ensures b < p.sizes[t] <==> t < |p.Sequence(b).xs| { SequenceSteps(p, t, b); }
  }

  /** The packed forward pass. */
  method RunForward<X, P, C, H>(ws: Workspace<P, C, H>, p: Packed<X, P, C, H>)
    requires p.Valid() && Fits(p, ws.forth, ws.back, ws.hy, ws.cy, 0) && |ws.forth.pre| == LayerShift(p.sizes, p.layers)
    modifies ws
    ensures forall l: nat, b: nat :: l < p.layers && b < p.sizes[0] ==>
              MatchesAlone(p, ws.forth, ws.back, ws.hy, ws.cy, l, b)
  {
    hide LayerDone, Turning, Packed.HxShift, BelowHolds, Offset, MatchesAlone;
    var shift := 0;
    for l := 0 to p.layers
      invariant shift == LayerShift(p.sizes, l)
      invariant Fits(p, ws.forth, ws.back, ws.hy, ws.cy, 0) && |ws.forth.pre| == LayerShift(p.sizes, p.layers)
      invariant forall k: nat :: k < l ==> LayerDone(p, ws.forth, ws.back, ws.hy, ws.cy, k)
    {
      ghost var f0, b0, hy0, cy0 := ws.forth, ws.back, ws.hy, ws.cy;
      LayerRoom(p.sizes, l, p.layers);
      BelowIsDone(p, ws.forth, ws.back, ws.hy, ws.cy, l);
      RunLayer(ws, p, l, shift, p.HxShift(l));
      forall k: nat | k < l ensures LayerDone(p, ws.forth, ws.back, ws.hy, ws.cy, k) {
        LayerKept(p, f0, ws.forth, b0, ws.back, hy0, ws.hy, cy0, ws.cy, k, l);
      }
      TurnedIsDone(p, ws.forth, ws.back, ws.hy, ws.cy, l);
      shift := shift + Rows(p.sizes);
    }
    forall l: nat, b: nat | l < p.layers && b < p.sizes[0]
      ensures MatchesAlone(p, ws.forth, ws.back, ws.hy, ws.cy, l, b) {
      DoneMatches(p, ws.forth, ws.back, ws.hy, ws.cy, l, b);
    }
  }

  lemma TurnedIsDone<X, P, C, H>(p: Packed<X, P, C, H>, forth: Side<P, C, H>, back: Side<P, C, H>, hy: seq<H>,
                                 cy: seq<C>, l: nat)
    requires p.Valid() && Turning(p, forth, back, hy, cy, LayerShift(p.sizes, l), l, |p.sizes|)
    ensures LayerDone(p, forth, back, hy, cy, l)
  {
  }
}
