/** Where taps read: the products as textbook correlations, and a dilated filter as one spread out with zeros. */
module ConvGeometry {
  import opened Sums
  import opened Tensors
  import opened ConvSpec

  // ---- Correlations, written out ----

  /** The place a weight reads for one output cell. */
  function Under(p: Shape, top: Cell, c: int, kj: int, ki: int): (u: Cell)
    ensures u.n == top.n && u.c == c
  {
    Cell(top.n, c, top.y * p.strideH + kj * p.dilationH - p.padH, top.x * p.strideW + ki * p.dilationW - p.padW)
  }

  lemma UnderTap(p: Shape, t: Tap)
    ensures Under(p, p.TopOf(t), t.c, t.kj, t.ki) == p.BotOf(t)
  {
  }

  function Padding(p: Shape, x: Tensor, padding: real): Tensor {
    (v: Cell) => if 0 <= v.y < p.botHeight && 0 <= v.x < p.botWidth then x(v) else padding
  }

  function WeightPart(p: Shape, x: Tensor, y: Tensor, u: Cell): Tensor {
    (v: Cell) => Padding(p, x, 0.0)(Under(p, v, u.c, u.y, u.x)) * y(v)
  }

  /** Output cells of one channel. */
  function Plane(p: Shape, c: int): (s: set<Cell>)
    ensures forall v :: v in s <==> p.TopHas(v) && v.c == c
  {
    set v | v in p.TopCells() && v.c == c
  }

  /** Those for which the weight reads the input itself. */
  function Landed(p: Shape, u: Cell): (s: set<Cell>)
    ensures forall v :: v in s <==> p.TopHas(v) && v.c == u.n && p.BotHas(Under(p, v, u.c, u.y, u.x))
  {
    set v | v in Plane(p, u.n) && p.BotHas(Under(p, v, u.c, u.y, u.x))
  }

  lemma LandedTaps(p: Shape, x: Tensor, y: Tensor, u: Cell)
    requires p.WeiHas(u)
    ensures p.BackwardWeights(x, y)(u) == SumOver(Landed(p, u), WeightPart(p, x, y, u))
  {
    hide SumOver, Under, Shape.RowAt, Shape.ColumnAt, Plane;
    forall t: Tap ensures Under(p, p.TopOf(t), t.c, t.kj, t.ki) == p.BotOf(t) { UnderTap(p, t); }
    var back := (v: Cell) => Tap(v.n, u.n, u.c, v.y, v.x, u.y, u.x);
    Reindex(Fibre(p.Landing(), p.WeiKey(), u), Landed(p, u), p.TopKey(), back, p.WeightTerm(x, y),
            WeightPart(p, x, y, u));
  }

  /** A weight's gradient: over all images and output cells, the input under the weight times the output gradient. */
  lemma WeightsAreCorrelation(p: Shape, x: Tensor, y: Tensor, u: Cell)
    requires p.WeiHas(u)
    ensures p.BackwardWeights(x, y)(u) == SumOver(Plane(p, u.n), WeightPart(p, x, y, u))
  {
    hide SumOver, Under, Shape.BackwardWeights;
    LandedTaps(p, x, y, u);
    SumPart(Plane(p, u.n), Landed(p, u), WeightPart(p, x, y, u));
  }

  /** Weights of one output channel. */
  function Filter(p: Shape, o: int): (s: set<Cell>)
    ensures forall v :: v in s <==> p.WeiHas(v) && v.n == o
  {
    set v | v in p.WeiCells() && v.n == o
  }

  function ForwardPart(p: Shape, x: Tensor, w: Tensor, padding: real, u: Cell): Tensor {
    (v: Cell) => Padding(p, x, padding)(Under(p, u, v.c, v.y, v.x)) * w(v)
  }

  /** An output cell: over its channel's filter, the input under each weight, or the padding, times the weight. */
  lemma ForwardIsCorrelation(p: Shape, x: Tensor, w: Tensor, padding: real, u: Cell)
    requires p.TopHas(u)
    ensures p.Forward(x, w, padding)(u) == SumOver(Filter(p, u.c), ForwardPart(p, x, w, padding, u))
  {
    hide SumOver;
    var taps, f, g := Fibre(p.Taps(), p.TopKey(), u), p.ForwardTerm(x, w, padding), ForwardPart(p, x, w, padding, u);
    var back := (v: Cell) => Tap(u.n, u.c, v.c, u.y, u.x, v.y, v.x);
    Reindex(taps, Filter(p, u.c), p.WeiKey(), back, f, g);
  }

  /** An output cell and a weight, which meet at the input cell that both belong to. */
  datatype Meeting = Meeting(top: Cell, wei: Cell)

  function MeetingsAt(p: Shape, u: Cell): (s: set<Meeting>)
    ensures forall m: Meeting :: m in s <==> p.TopHas(m.top) && p.WeiHas(m.wei) && m.top.c == m.wei.n
                                             && Under(p, m.top, m.wei.c, m.wei.y, m.wei.x) == u
  {
    set v, w | v in p.TopCells() && w in p.WeiCells() && v.c == w.n && Under(p, v, w.c, w.y, w.x) == u :: Meeting(v, w)
  }

  function DataPart(y: Tensor, w: Tensor): Meeting -> real { (m: Meeting) => y(m.top) * w(m.wei) }

  /** An input cell's gradient: over everything that reads the cell, the output gradient times the weight. */
  lemma DataIsTransposed(p: Shape, y: Tensor, w: Tensor, u: Cell)
    requires p.BotHas(u)
    ensures p.BackwardData(y, w)(u) == SumOver(MeetingsAt(p, u), DataPart(y, w))
  {
    hide SumOver, Under, MeetingsAt, Shape.RowAt, Shape.ColumnAt;
    var taps, f := Fibre(p.Landing(), p.BotKey(), u), p.DataTerm(y, w);
    var key := (t: Tap) => Meeting(p.TopOf(t), p.WeiOf(t));
    var back := (m: Meeting) => Tap(m.top.n, m.top.c, m.wei.c, m.top.y, m.top.x, m.wei.y, m.wei.x);
    forall t: Tap ensures Under(p, p.TopOf(t), t.c, t.kj, t.ki) == p.BotOf(t) { UnderTap(p, t); }
    Reindex(taps, MeetingsAt(p, u), key, back, f, DataPart(y, w));
  }

  // ---- Dilation ----

  /** Sides of a filter with `dilation - 1` zeros between neighbours. */
  function SpreadSide(side: nat, dilation: nat): nat { if side == 0 then 0 else (side - 1) * dilation + 1 }

  /** The same problem without dilation, for a filter spread out with zeros. */
  function Spread(p: Shape): Shape {
    p.(filterHeight := SpreadSide(p.filterHeight, p.dilationH), filterWidth := SpreadSide(p.filterWidth, p.dilationW),
       dilationH := 1, dilationW := 1)
  }

  function SpreadOut(p: Shape, u: Cell): Cell { Cell(u.n, u.c, u.y * p.dilationH, u.x * p.dilationW) }

  lemma SpreadInside(k: nat, side: nat, dilation: nat)
    requires k < side
    ensures 0 <= k * dilation < SpreadSide(side, dilation)
  {
    assert k * dilation <= (side - 1) * dilation;
  }

  /** A dilated filter gets the gradient of the spread-out one at the places its weights are spread to. */
  lemma DilationSpreads(p: Shape, x: Tensor, y: Tensor, u: Cell)
    requires p.WeiHas(u)
    ensures Spread(p).WeiHas(SpreadOut(p, u))
    ensures p.BackwardWeights(x, y)(u) == Spread(p).BackwardWeights(x, y)(SpreadOut(p, u))
  {
    SpreadInside(u.y, p.filterHeight, p.dilationH);
    SpreadInside(u.x, p.filterWidth, p.dilationW);
    var q, v := Spread(p), SpreadOut(p, u);
    assert Plane(p, u.n) == Plane(q, v.n);
    hide SumOver, WeightPart, Plane, Shape.BackwardWeights;
    forall top: Cell ensures WeightPart(p, x, y, u)(top) == WeightPart(q, x, y, v)(top) { SpreadPart(p, x, y, u, top); }
    WeightsAreCorrelation(p, x, y, u);
    WeightsAreCorrelation(q, x, y, v);
    SumSame(Plane(p, u.n), WeightPart(p, x, y, u), WeightPart(q, x, y, v));
  }

  lemma SpreadPart(p: Shape, x: Tensor, y: Tensor, u: Cell, top: Cell)
    ensures WeightPart(p, x, y, u)(top) == WeightPart(Spread(p), x, y, SpreadOut(p, u))(top)
  {
    assert Under(p, top, u.c, u.y, u.x) == Under(Spread(p), top, u.c, u.y * p.dilationH, u.x * p.dilationW);
  }
}
