/**
 Backwards over the packed rows: the weight gradient and the initial-state gradient follow the forward pass's own
 edges.
 */
module LstmGradient {
  import opened Sums
  import opened LstmPacking
  import opened LstmAlone
  import opened LstmForward

  /** Where a row's old hidden state comes from: initial row `b`, or packed row `r` of the same layer. */
  datatype Origin = Start(b: nat) | Row(r: nat)

  datatype Edge = Edge(row: nat, origin: Origin)

  function OriginOf(sizes: seq<nat>, d: Direction, t: nat, b: nat): Origin
    requires t < |sizes|
  {
    if d == Forth then
      if t == 0 then Start(b) else Row(Offset(sizes, t - 1) + b)
    else
      if t + 1 < |sizes| && b < sizes[t + 1] then Row(Offset(sizes, t + 1) + b) else Start(b)
  }

  function EdgeAt(sizes: seq<nat>, d: Direction, t: nat, b: nat): Edge
    requires t < |sizes|
  {
    Edge(Offset(sizes, t) + b, OriginOf(sizes, d, t, b))
  }

  // ---- The forward pass reads these edges ----

  ghost function HiddenAt<X, P, C, H>(p: Packed<X, P, C, H>, side: Side<P, C, H>, shift: nat, l: nat, d: Direction,
                                      o: Origin): Option<H>
    requires p.Valid()
  {
    match o
    case Start(b) => p.StartH(b)(l, d)
    case Row(r) => if shift + r < |side.h| then Some(side.h[shift + r]) else None
  }

  /** Each forward row read the hidden row at the origin of its edge. */
  lemma ForthReads<X, P, C, H>(p: Packed<X, P, C, H>, side: Side<P, C, H>, shift: nat, l: nat, t: nat, b: nat)
    requires p.Valid() && t < |p.sizes| && b < p.sizes[t] && ForwardHolds(p, side, shift, l, |p.sizes|)
    ensures t < |p.Sequence(b).xs|
    ensures ForthH(p, l, t, b) == HiddenAt(p, side, shift, l, Forth, OriginOf(p.sizes, Forth, t, b))
  {
    hide Packed.Sequence, Alone.Forward, Packed.StartH;
    SequenceSteps(p, t, b);
    if t > 0 {
      assert b < p.sizes[t - 1] && At(p.sizes, shift, t - 1, b) == shift + (Offset(p.sizes, t - 1) + b);
      assert RowIs(side, At(p.sizes, shift, t - 1, b), p.Sequence(b).Forward(l, t - 1));
    }
  }

  lemma BackReads<X, P, C, H>(p: Packed<X, P, C, H>, side: Side<P, C, H>, shift: nat, l: nat, t: nat, b: nat)
    requires p.Valid() && t < |p.sizes| && b < p.sizes[t] && ReverseHolds(p, side, shift, l, 0)
    ensures t < |p.Sequence(b).xs|
    ensures BackH(p, l, t, b) == HiddenAt(p, side, shift, l, Back, OriginOf(p.sizes, Back, t, b))
  {
    hide Packed.Sequence, Alone.Reverse, Packed.StartH;
    SequenceSteps(p, t, b);
    LengthInside(p, b);
    if t + 1 < |p.sizes| {
      SequenceSteps(p, t + 1, b);
      if b < p.sizes[t + 1] {
        assert At(p.sizes, shift, t + 1, b) == shift + (Offset(p.sizes, t + 1) + b);
        assert RowIs(side, At(p.sizes, shift, t + 1, b), p.Sequence(b).Reverse(l, t + 1));
      }
    }
  }

  // ---- The weight gradient adds up these edges ----

  /** The edges of one time step; those from initial rows count only if there are any. */
  function StepEdges(sizes: seq<nat>, d: Direction, hx: bool, t: nat): set<Edge>
    requires t < |sizes|
  {
    set b: nat | b < sizes[t] && (hx || EdgeAt(sizes, d, t, b).origin.Row?) :: EdgeAt(sizes, d, t, b)
  }

  function Edges(sizes: seq<nat>, d: Direction, hx: bool, n: nat): set<Edge>
    requires n <= |sizes|
  {
    if n == 0 then {} else Edges(sizes, d, hx, n - 1) + StepEdges(sizes, d, hx, n - 1)
  }

  lemma {:induction false} EdgesAre(sizes: seq<nat>, d: Direction, hx: bool, n: nat, e: Edge)
    requires n <= |sizes|
    ensures e in Edges(sizes, d, hx, n) <==>
              exists t: nat, b: nat :: t < n && b < sizes[t] && e == EdgeAt(sizes, d, t, b) && (hx || e.origin.Row?)
  {
    if n > 0 { EdgesAre(sizes, d, hx, n - 1, e); }
  }

  /** With initial rows given, every packed row is the row of exactly one edge. */
  lemma EveryRowOnce(sizes: seq<nat>, d: Direction, r: nat)
    requires r < Rows(sizes)
    ensures exists e :: e in Edges(sizes, d, true, |sizes|) && e.row == r
    ensures forall e, f ::
              e in Edges(sizes, d, true, |sizes|) && f in Edges(sizes, d, true, |sizes|) && e.row == r && f.row == r ==>
                e == f
  {
    RowTaken(sizes, |sizes|, r);
    var t: nat :| t < |sizes| && Offset(sizes, t) <= r < Offset(sizes, t) + sizes[t];
    var mine := EdgeAt(sizes, d, t, r - Offset(sizes, t));
    EdgesAre(sizes, d, true, |sizes|, mine);
    forall e | e in Edges(sizes, d, true, |sizes|) && e.row == r ensures e == mine {
      EdgesAre(sizes, d, true, |sizes|, e);
      var t': nat, b': nat :| t' < |sizes| && b' < sizes[t'] && e == EdgeAt(sizes, d, t', b');
      RowsApart(sizes, t, r - Offset(sizes, t), t', b');
    }
  }

  lemma {:induction false} EdgesBelow(sizes: seq<nat>, d: Direction, hx: bool, n: nat)
    requires n <= |sizes|
    ensures forall e :: e in Edges(sizes, d, hx, n) ==> e.row < Offset(sizes, n)
  {
    if n > 0 { EdgesBelow(sizes, d, hx, n - 1); }
  }

  function Block(sizes: seq<nat>, d: Direction, t: nat, lo: nat, hi: nat): set<Edge>
    requires t < |sizes|
  {
    set b: nat | lo <= b < hi :: EdgeAt(sizes, d, t, b)
  }

  /** Adds the terms of `hi - lo` rows, each with its own origin. */
  method AddRows(sum: real, term: Edge -> real, row: nat, start: bool, from: nat, ghost sizes: seq<nat>,
                 ghost d: Direction, ghost t: nat, lo: nat, hi: nat, ghost done: set<Edge>)
    returns (next: real)
    requires t < |sizes| && lo <= hi <= sizes[t] && row == Offset(sizes, t) + lo && sum == SumOver(done, term)
    requires forall b: nat :: lo <= b < hi ==>
               OriginOf(sizes, d, t, b) == if start then Start(from + (b - lo)) else Row(from + (b - lo))
    requires forall e :: e in done ==> !(row <= e.row < row + (hi - lo))
    ensures next == SumOver(done + Block(sizes, d, t, lo, hi), term)
  {
    hide SumOver;
    next := sum;
    assert done + Block(sizes, d, t, lo, lo) == done;
    for w := 0 to hi - lo
      invariant next == SumOver(done + Block(sizes, d, t, lo, lo + w), term)
    {
      var e := Edge(row + w, if start then Start(from + w) else Row(from + w));
      assert e == EdgeAt(sizes, d, t, lo + w);
      next := next + term(e);
      ghost var before := done + Block(sizes, d, t, lo, lo + w);
      SumInsert(before, e, term);
      assert before + {e} == done + Block(sizes, d, t, lo, lo + w + 1);
    }
  }

  /** One time step forth. */
  method ForthEdges(sizes: seq<nat>, hx: bool, bacc: nat, ti: nat, sum: real, term: Edge -> real) returns (next: real)
    requires Packable(sizes) && ti < |sizes| && bacc == Offset(sizes, ti)
    requires sum == SumOver(Edges(sizes, Forth, hx, ti), term)
    ensures next == SumOver(Edges(sizes, Forth, hx, ti + 1), term)
  {
    hide SumOver;
    EdgesBelow(sizes, Forth, hx, ti);
    ghost var done := Edges(sizes, Forth, hx, ti);
    next := sum;
    if ti == 0 {
      if hx {
        next := AddRows(next, term, bacc, true, 0, sizes, Forth, ti, 0, sizes[ti], done);
        assert StepEdges(sizes, Forth, hx, ti) == Block(sizes, Forth, ti, 0, sizes[ti]);
      } else {
        assert StepEdges(sizes, Forth, hx, ti) == {} && Edges(sizes, Forth, hx, ti + 1) == done;
      }
    } else {
      next := AddRows(next, term, bacc, false, bacc - sizes[ti - 1], sizes, Forth, ti, 0, sizes[ti], done);
      assert StepEdges(sizes, Forth, hx, ti) == Block(sizes, Forth, ti, 0, sizes[ti]);
    }
  }

  /** One time step back; rows that begin their way back here have initial rows as origins. */
  method BackEdges(sizes: seq<nat>, hx: bool, bacc: nat, ti: nat, sum: real, term: Edge -> real) returns (next: real)
    requires Packable(sizes) && ti < |sizes| && bacc == Offset(sizes, ti)
    requires sum == SumOver(Edges(sizes, Back, hx, ti), term)
    ensures next == SumOver(Edges(sizes, Back, hx, ti + 1), term)
  {
    hide SumOver;
    EdgesBelow(sizes, Back, hx, ti);
    ghost var done := Edges(sizes, Back, hx, ti);
    next := sum;
    if ti == |sizes| - 1 {
      if hx {
        next := AddRows(next, term, bacc, true, 0, sizes, Back, ti, 0, sizes[ti], done);
        assert Edges(sizes, Back, hx, ti + 1) == done + Block(sizes, Back, ti, 0, sizes[ti]);
      } else {
        assert StepEdges(sizes, Back, hx, ti) == {} && Edges(sizes, Back, hx, ti + 1) == done;
      }
    } else {
      var going := sizes[ti + 1];
      if hx && sizes[ti] > going {
        next := AddRows(next, term, bacc + going, true, going, sizes, Back, ti, going, sizes[ti], done);
        done := done + Block(sizes, Back, ti, going, sizes[ti]);
      }
      next := AddRows(next, term, bacc, false, bacc + sizes[ti], sizes, Back, ti, 0, going, done);
      BackStep(sizes, hx, ti);
      assert done + Block(sizes, Back, ti, 0, going) == Edges(sizes, Back, hx, ti + 1);
    }
  }

  lemma BackStep(sizes: seq<nat>, hx: bool, t: nat)
    requires Packable(sizes) && t + 1 < |sizes|
    ensures StepEdges(sizes, Back, hx, t)
         == (if hx then Block(sizes, Back, t, sizes[t + 1], sizes[t]) else {}) + Block(sizes, Back, t, 0, sizes[t + 1])
  {
  }

  /** One entry of the recurrent weight gradient, or of its bias, in both directions. */
  method RecurrentGradient(sizes: seq<nat>, bidirectional: bool, hx: bool, forthTerm: Edge -> real,
                           backTerm: Edge -> real)
    returns (forth: real, back: real)
    requires Packable(sizes)
    ensures forth == SumOver(Edges(sizes, Forth, hx, |sizes|), forthTerm)
    ensures bidirectional ==> back == SumOver(Edges(sizes, Back, hx, |sizes|), backTerm)
  {
    var bacc := 0;
    forth, back := 0.0, 0.0;
    for ti := 0 to |sizes|
      invariant bacc == Offset(sizes, ti)
      invariant forth == SumOver(Edges(sizes, Forth, hx, ti), forthTerm)
      invariant bidirectional ==> back == SumOver(Edges(sizes, Back, hx, ti), backTerm)
    {
      forth := ForthEdges(sizes, hx, bacc, ti, forth, forthTerm);
      if bidirectional { back := BackEdges(sizes, hx, bacc, ti, back, backTerm); }
      bacc := bacc + sizes[ti];
    }
  }

  // ---- The gradient of the initial rows ----

  /** The row whose origin is initial row `b`: first step forth, last step back. */
  function StartRow(sizes: seq<nat>, d: Direction, b: nat): nat
    requires |sizes| >= 1 && 1 <= Length(sizes, b) <= |sizes|
  {
    if d == Forth then b else Offset(sizes, Length(sizes, b) - 1) + b
  }

  /** It is the only one. */
  lemma StartRowOnce(sizes: seq<nat>, d: Direction, t: nat, b: nat)
    requires Packable(sizes) && t < |sizes| && b < sizes[t]
    ensures 1 <= Length(sizes, b) <= |sizes|
    ensures OriginOf(sizes, d, t, b) == Start(b) <==> EdgeAt(sizes, d, t, b).row == StartRow(sizes, d, b)
  {
    LengthIs(sizes, b);
    assert b < sizes[0];
    if d == Forth {
      if t > 0 { OffsetGrows(sizes, 0, t); assert sizes[0] > 0; }
    } else if EdgeAt(sizes, d, t, b).row == StartRow(sizes, d, b) {
      RowsApart(sizes, t, b, Length(sizes, b) - 1, b);
    }
  }

  /** Adds every sequence's own starting row, forth and back, to its initial row. */
  method InitialGradient(sizes: seq<nat>, bidirectional: bool, dhx: array<real>, hxShift: nat, forthTerm: nat -> real,
                         backTerm: nat -> real)
    requires Packable(sizes) && hxShift + (if bidirectional then 2 else 1) * sizes[0] <= dhx.Length
    modifies dhx
    ensures forall b: nat :: b < sizes[0] ==> 1 <= Length(sizes, b) <= |sizes|
    ensures forall q :: 0 <= q < dhx.Length ==>
              dhx[q] == old(dhx[q])
                        + if hxShift <= q < hxShift + sizes[0] then forthTerm(StartRow(sizes, Forth, q - hxShift))
                          else if bidirectional && hxShift + sizes[0] <= q < hxShift + 2 * sizes[0]
                               then backTerm(StartRow(sizes, Back, q - hxShift - sizes[0]))
                          else 0.0
  {
    var n := sizes[0];
    forall b: nat | b < n ensures 1 <= Length(sizes, b) <= |sizes| { LengthIs(sizes, b); }
    for bs := 0 to n
      invariant forall q :: 0 <= q < dhx.Length ==>
                  dhx[q] == old(dhx[q]) + if hxShift <= q < hxShift + bs then forthTerm(q - hxShift) else 0.0
    {
      dhx[hxShift + bs] := dhx[hxShift + bs] + forthTerm(bs);
    }
    if bidirectional {
      BackInitial(sizes, dhx, hxShift + n, backTerm);
    }
  }

  /**
   Walks back through the steps; sequences that end at `ti` are those between the counts of two neighbouring steps.
   */
  method BackInitial(sizes: seq<nat>, dhx: array<real>, from: nat, term: nat -> real)
    requires Packable(sizes) && from + sizes[0] <= dhx.Length
    modifies dhx
    ensures forall b: nat :: b < sizes[0] ==> 1 <= Length(sizes, b) <= |sizes|
    ensures forall q :: 0 <= q < dhx.Length ==>
              dhx[q] == old(dhx[q]) + if from <= q < from + sizes[0] then term(StartRow(sizes, Back, q - from)) else 0.0
  {
    forall b: nat | b < sizes[0] ensures 1 <= Length(sizes, b) <= |sizes| { LengthIs(sizes, b); }
    var ti, current, offset := |sizes| - 1, 0, Rows(sizes);
    while ti >= 0
      invariant -1 <= ti < |sizes| && offset == Offset(sizes, ti + 1)
      invariant current == if ti + 1 < |sizes| then sizes[ti + 1] else 0
      invariant current <= sizes[0]
      invariant forall q :: 0 <= q < dhx.Length ==>
                  dhx[q] == old(dhx[q]) + if from <= q < from + current then term(StartRow(sizes, Back, q - from))
                    else 0.0
      decreases ti
    {
      offset := offset - sizes[ti];
      if sizes[ti] > current {
        AddEnding(sizes, dhx, from, term, ti, current, offset);
      }
      current := sizes[ti];
      ti := ti - 1;
    }
  }

  method AddEnding(sizes: seq<nat>, dhx: array<real>, from: nat, term: nat -> real, ti: nat, current: nat, offset: nat)
    requires Packable(sizes) && from + sizes[0] <= dhx.Length && ti < |sizes| && offset == Offset(sizes, ti)
    requires current == if ti + 1 < |sizes| then sizes[ti + 1] else 0
    requires forall b: nat :: b < sizes[0] ==> 1 <= Length(sizes, b) <= |sizes|
    requires sizes[ti] > current
    modifies dhx
    ensures forall q :: 0 <= q < dhx.Length ==>
              dhx[q] == old(dhx[q]) + if from + current <= q < from + sizes[ti]
                then term(StartRow(sizes, Back, q - from)) else 0.0
  {
    for bs := current to sizes[ti]
      invariant forall q :: 0 <= q < dhx.Length ==>
                  dhx[q] == old(dhx[q]) + if from + current <= q < from + bs then term(StartRow(sizes, Back, q - from))
                    else 0.0
    {
      LengthIs(sizes, bs);
      assert Length(sizes, bs) == ti + 1;
      dhx[from + bs] := dhx[from + bs] + term((offset + current) + (bs - current));
    }
  }
}
