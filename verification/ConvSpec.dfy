/** Convolution as sums over taps: one tap joins one output cell, one weight and one place of the padded input. */
module ConvSpec {
  import opened Sums
  import opened Tensors

  datatype Tap = Tap(b: int, o: int, c: int, j: int, i: int, kj: int, ki: int)

  datatype Shape = Shape(batches: nat, outputs: nat, inputs: nat, topHeight: nat, topWidth: nat, botHeight: nat,
                         botWidth: nat, filterHeight: nat, filterWidth: nat, strideH: nat, strideW: nat, padH: nat,
                         padW: nat, dilationH: nat, dilationW: nat) {

    predicate Has(t: Tap) {
      && 0 <= t.b < batches && 0 <= t.o < outputs && 0 <= t.c < inputs
      && 0 <= t.j < topHeight && 0 <= t.i < topWidth
      && 0 <= t.kj < filterHeight && 0 <= t.ki < filterWidth
    }

    predicate TopHas(u: Cell) { 0 <= u.n < batches && 0 <= u.c < outputs && 0 <= u.y < topHeight
      && 0 <= u.x < topWidth }

    predicate BotHas(u: Cell) { 0 <= u.n < batches && 0 <= u.c < inputs && 0 <= u.y < botHeight && 0 <= u.x < botWidth }

    predicate WeiHas(u: Cell) { 0 <= u.n < outputs && 0 <= u.c < inputs && 0 <= u.y < filterHeight
      && 0 <= u.x < filterWidth }

    function RowAt(j: int, kj: int): int { j * strideH + kj * dilationH - padH }

    function ColumnAt(i: int, ki: int): int { i * strideW + ki * dilationW - padW }

    function TopOf(t: Tap): Cell { Cell(t.b, t.o, t.j, t.i) }

    function WeiOf(t: Tap): Cell { Cell(t.o, t.c, t.kj, t.ki) }

    function BotOf(t: Tap): Cell { Cell(t.b, t.c, RowAt(t.j, t.kj), ColumnAt(t.i, t.ki)) }

    /** The tap reads the input itself and not its padding. */
    predicate Lands(t: Tap) { BotHas(BotOf(t)) }

    function Taps(): (s: set<Tap>)
      ensures forall t :: t in s <==> Has(t)
    {
      set b, o, c, j, i, kj, ki | 0 <= b < batches && 0 <= o < outputs && 0 <= c < inputs && 0 <= j < topHeight
                                  && 0 <= i < topWidth && 0 <= kj < filterHeight && 0 <= ki < filterWidth
        :: Tap(b, o, c, j, i, kj, ki)
    }

    function Landing(): (s: set<Tap>)
      ensures forall t :: t in s <==> Has(t) && Lands(t)
    {
      set t | t in Taps() && Lands(t)
    }

    function TopKey(): Tap -> Cell { t => TopOf(t) }

    function BotKey(): Tap -> Cell { t => BotOf(t) }

    function WeiKey(): Tap -> Cell { t => WeiOf(t) }

    function TopCells(): (s: set<Cell>)
      ensures forall u :: u in s <==> TopHas(u)
    {
      Grid(batches, outputs, topHeight, topWidth)
    }

    function BotCells(): (s: set<Cell>)
      ensures forall u :: u in s <==> BotHas(u)
    {
      Grid(batches, inputs, botHeight, botWidth)
    }

    function WeiCells(): (s: set<Cell>)
      ensures forall u :: u in s <==> WeiHas(u)
    {
      Grid(outputs, inputs, filterHeight, filterWidth)
    }

    function ForwardTerm(x: Tensor, w: Tensor, padding: real): Tap -> real {
      t => (if Lands(t) then x(BotOf(t)) else padding) * w(WeiOf(t))
    }

    function DataTerm(y: Tensor, w: Tensor): Tap -> real {
      t => y(TopOf(t)) * w(WeiOf(t))
    }

    function WeightTerm(x: Tensor, y: Tensor): Tap -> real {
      t => x(BotOf(t)) * y(TopOf(t))
    }

    ghost function Forward(x: Tensor, w: Tensor, padding: real): Tensor {
      u => Share(Taps(), TopKey(), ForwardTerm(x, w, padding), u)
    }

    ghost function BackwardData(y: Tensor, w: Tensor): Tensor {
      u => Share(Landing(), BotKey(), DataTerm(y, w), u)
    }

    ghost function BackwardWeights(x: Tensor, y: Tensor): Tensor {
      u => Share(Landing(), WeiKey(), WeightTerm(x, y), u)
    }

    function TripleTerm(x: Tensor, w: Tensor, y: Tensor): Tap -> real {
      t => x(BotOf(t)) * w(WeiOf(t)) * y(TopOf(t))
    }

    /** A forward term, weighted; zero where the tap reads padding. */
    function PaddedTerm(x: Tensor, w: Tensor, y: Tensor): Tap -> real {
      t => ForwardTerm(x, w, 0.0)(t) * y(TopOf(t))
    }

    /** The form that the three products share. */
    ghost function Trilinear(x: Tensor, w: Tensor, y: Tensor): real {
      SumOver(Landing(), TripleTerm(x, w, y))
    }
  }

  lemma ForwardIsTrilinear(p: Shape, x: Tensor, w: Tensor, y: Tensor)
    ensures Inner(p.TopCells(), p.Forward(x, w, 0.0), y) == p.Trilinear(x, w, y)
  {
    hide Shape.Lands, Shape.TopOf, Shape.BotOf, Shape.WeiOf, Shape.Has, Shape.TripleTerm, Shape.ForwardTerm, Inner;
    var whole := p.PaddedTerm(x, w, y);
    ForwardOnTaps(p, x, w, y);
    forall t: Tap ensures whole(t) == if p.Lands(t) then p.TripleTerm(x, w, y)(t) else 0.0 {
      PaddedTermAt(p, x, w, y, t);
    }
    SumPart(p.Taps(), p.Landing(), whole);
    SumSame(p.Landing(), whole, p.TripleTerm(x, w, y));
  }

  lemma ForwardOnTaps(p: Shape, x: Tensor, w: Tensor, y: Tensor)
    ensures Inner(p.TopCells(), p.Forward(x, w, 0.0), y) == SumOver(p.Taps(), p.PaddedTerm(x, w, y))
  {
    hide Shape.Lands, Shape.BotOf, Shape.WeiOf, Shape.ForwardTerm;
    Pairing(p.Taps(), p.TopCells(), p.TopKey(), p.ForwardTerm(x, w, 0.0), y, Times(p.Forward(x, w, 0.0), y),
            p.PaddedTerm(x, w, y));
  }

  lemma PaddedTermAt(p: Shape, x: Tensor, w: Tensor, y: Tensor, t: Tap)
    ensures p.PaddedTerm(x, w, y)(t) == if p.Lands(t) then p.TripleTerm(x, w, y)(t) else 0.0
  {
    hide Shape.Lands, Shape.TopOf, Shape.BotOf, Shape.WeiOf;
    assert p.ForwardTerm(x, w, 0.0)(t) == (if p.Lands(t) then x(p.BotOf(t)) else 0.0) * w(p.WeiOf(t));
    if !p.Lands(t) { assert p.ForwardTerm(x, w, 0.0)(t) == 0.0; }
  }

  lemma BackwardDataIsTrilinear(p: Shape, x: Tensor, w: Tensor, y: Tensor)
    ensures Inner(p.BotCells(), p.BackwardData(y, w), x) == p.Trilinear(x, w, y)
  {
    Pairing(p.Landing(), p.BotCells(), p.BotKey(), p.DataTerm(y, w), x, Times(p.BackwardData(y, w), x),
            p.TripleTerm(x, w, y));
  }

  lemma BackwardWeightsIsTrilinear(p: Shape, x: Tensor, w: Tensor, y: Tensor)
    ensures Inner(p.WeiCells(), p.BackwardWeights(x, y), w) == p.Trilinear(x, w, y)
  {
    Pairing(p.Landing(), p.WeiCells(), p.WeiKey(), p.WeightTerm(x, y), w, Times(p.BackwardWeights(x, y), w),
            p.TripleTerm(x, w, y));
  }

  /** Each product is the gradient of one and the same form. */
  lemma OneTrilinearForm(p: Shape, x: Tensor, w: Tensor, y: Tensor)
    ensures Inner(p.TopCells(), p.Forward(x, w, 0.0), y)
         == Inner(p.BotCells(), p.BackwardData(y, w), x)
         == Inner(p.WeiCells(), p.BackwardWeights(x, y), w)
  {
    ForwardIsTrilinear(p, x, w, y);
    BackwardDataIsTrilinear(p, x, w, y);
    BackwardWeightsIsTrilinear(p, x, w, y);
  }
}
