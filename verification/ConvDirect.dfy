/** The direct loops: forward, backward to the data, and backward to the weights. */
module ConvDirect {
  import opened Sums
  import opened ConvSpec
  import opened Tensors

  ghost predicate Undilated(p: Shape) { p.dilationH == 1 && p.dilationW == 1 }

  /** The input place a filter place meets when filters are not dilated. */
  function Place(index: int, stride: nat, within: int, pad: nat): int { index * stride + within - pad }

  lemma PlaceIsRow(p: Shape, j: int, kj: int)
    requires Undilated(p)
    ensures p.RowAt(j, kj) == Place(j, p.strideH, kj, p.padH)
  {
  }

  lemma PlaceIsColumn(p: Shape, i: int, ki: int)
    requires Undilated(p)
    ensures p.ColumnAt(i, ki) == Place(i, p.strideW, ki, p.padW)
  {
  }

  // ---- Forward ----

  /** Taps of one output cell that come before `(c, kj, ki)`. */
  ghost predicate ForwardDone(p: Shape, done: set<Tap>, u: Cell, c: int, kj: int, ki: int) {
    forall t :: t in done <==>
      p.Has(t) && p.TopOf(t) == u && (t.c < c || (t.c == c && (t.kj < kj || (t.kj == kj && t.ki < ki))))
  }

  lemma ForwardTermIs(p: Shape, x: Tensor, w: Tensor, padding: real, t: Tap)
    ensures p.ForwardTerm(x, w, padding)(t) == (if p.BotHas(p.BotOf(t)) then x(p.BotOf(t)) else padding) * w(p.WeiOf(t))
  {
    hide Shape.BotHas, Shape.BotOf, Shape.WeiOf;
  }

  /** What one tap contributes; `inY` and `inX` may lie in the padding. */
  method ForwardTap(p: Shape, x: seq<real>, lx: Layout, w: seq<real>, lw: Layout, padding: real, t: Tap, inY: int,
                    inX: int)
    returns (term: real)
    requires p.Has(t) && p.BotOf(t) == Cell(t.b, t.c, inY, inX)
    requires Room(p.BotCells(), lx, |x|) && Room(p.WeiCells(), lw, |w|)
    ensures term == p.ForwardTerm(View(x, lx), View(w, lw), padding)(t)
  {
    hide Layout.At, Shape.RowAt, Shape.ColumnAt, Shape.ForwardTerm, View;
    ForwardTermIs(p, View(x, lx), View(w, lw), padding, t);
    var value := padding;
    if !(inY < 0 || inX < 0 || inY >= p.botHeight || inX >= p.botWidth) {
      assert Cell(t.b, t.c, inY, inX) in p.BotCells();
      value := Read(x, lx, Cell(t.b, t.c, inY, inX));
    }
    assert p.WeiOf(t) in p.WeiCells();
    term := value * Read(w, lw, Cell(t.o, t.c, t.kj, t.ki));
  }

  /** Sums up one output cell. */
  method ForwardCell(p: Shape, x: seq<real>, lx: Layout, w: seq<real>, lw: Layout, padding: real, b: nat, o: nat,
                     j: nat, i: nat)
    returns (accum: real)
    requires Undilated(p) && p.TopHas(Cell(b, o, j, i))
    requires Room(p.BotCells(), lx, |x|) && Room(p.WeiCells(), lw, |w|)
    ensures accum == p.Forward(View(x, lx), View(w, lw), padding)(Cell(b, o, j, i))
  {
    hide Layout.At, Shape.RowAt, Shape.ColumnAt, Place, Shape.ForwardTerm, View, SumOver;
    SumEmpty(p.ForwardTerm(View(x, lx), View(w, lw), padding));
    ghost var f, u := p.ForwardTerm(View(x, lx), View(w, lw), padding), Cell(b, o, j, i);
    ghost var done: set<Tap> := {};
    accum := 0.0;
    for c := 0 to p.inputs
      invariant accum == SumOver(done, f) && ForwardDone(p, done, u, c, 0, 0)
    {
      for kj := 0 to p.filterHeight
        invariant accum == SumOver(done, f) && ForwardDone(p, done, u, c, kj, 0)
      {
        PlaceIsRow(p, j, kj);
        var inY := Place(j, p.strideH, kj, p.padH);
        for ki := 0 to p.filterWidth
          invariant accum == SumOver(done, f) && ForwardDone(p, done, u, c, kj, ki)
        {
          PlaceIsColumn(p, i, ki);
          var t := Tap(b, o, c, j, i, kj, ki);
          var term := ForwardTap(p, x, lx, w, lw, padding, t, inY, Place(i, p.strideW, ki, p.padW));
          accum := accum + term;
          SumInsert(done, t, f);
          done := done + {t};
        }
      }
    }
    assert done == Fibre(p.Taps(), p.TopKey(), u);
  }

  ghost predicate CellsDone(p: Shape, done: set<Cell>, b: int, o: int, j: int, i: int) {
    forall u :: u in done <==>
      p.TopHas(u) && (u.n < b || (u.n == b && (u.c < o || (u.c == o && (u.y < j || (u.y == j && u.x < i))))))
  }

  /** The forward product, biased if there is a bias. */
  ghost function Biased(p: Shape, x: Tensor, w: Tensor, padding: real, bias: seq<real>): Tensor {
    u => p.Forward(x, w, padding)(u) + if 0 <= u.c < |bias| then bias[u.c] else 0.0
  }

  method ConvForwardDirect(p: Shape, padding: real, x: seq<real>, lx: Layout, top: array<real>, lt: Layout,
                           w: seq<real>, lw: Layout, bias: seq<real>)
    requires Undilated(p) && (bias == [] || |bias| == p.outputs)
    requires Room(p.BotCells(), lx, |x|) && Room(p.WeiCells(), lw, |w|)
    requires Room(p.TopCells(), lt, top.Length) && Apart(p.TopCells(), lt)
    modifies top
    ensures Filled(top[..], old(top[..]), lt, p.TopCells(), Biased(p, View(x, lx), View(w, lw), padding, bias))
  {
    hide Layout.At, Filled, Apart;
    ghost var value := Biased(p, View(x, lx), View(w, lw), padding, bias);
    ghost var done: set<Cell> := {};
    FillStart(top[..], lt, value);
    for b := 0 to p.batches
      invariant Filled(top[..], old(top[..]), lt, done, value) && CellsDone(p, done, b, 0, 0, 0)
    {
      for o := 0 to p.outputs
        invariant Filled(top[..], old(top[..]), lt, done, value) && CellsDone(p, done, b, o, 0, 0)
      {
        for j := 0 to p.topHeight
          invariant Filled(top[..], old(top[..]), lt, done, value) && CellsDone(p, done, b, o, j, 0)
        {
          for i := 0 to p.topWidth
            invariant Filled(top[..], old(top[..]), lt, done, value) && CellsDone(p, done, b, o, j, i)
          {
            ghost var u, data := Cell(b, o, j, i), top[..];
            assert u in p.TopCells();
            var accum := ForwardCell(p, x, lx, w, lw, padding, b, o, j, i);
            top[lt.At(Cell(b, o, j, i))] := if bias != [] then accum + bias[o] else accum;
            FillStep(data, old(top[..]), lt, p.TopCells(), done, value, u, top[..]);
            done := done + {u};
          }
        }
      }
    }
    assert done == p.TopCells();
  }

  // ---- Backward to the data ----

  /** The landing taps before `(b, c, o, j, i, kj, ki)` in the order of the backward loops. */
  ghost predicate DataDone(p: Shape, done: set<Tap>, b: int, c: int, o: int, j: int, i: int, kj: int, ki: int) {
    forall t :: t in done <==> p.Has(t) && p.Lands(t) && DataBefore(t, b, c, o, j, i, kj, ki)
  }

  predicate DataBefore(t: Tap, b: int, c: int, o: int, j: int, i: int, kj: int, ki: int) {
    t.b < b || (t.b == b && (t.c < c || (t.c == c && (t.o < o || (t.o == o && (t.j < j || (t.j == j &&
    (t.i < i || (t.i == i && (t.kj < kj || (t.kj == kj && t.ki < ki)))))))))))
  }

  lemma DataTermIs(p: Shape, y: Tensor, w: Tensor, t: Tap)
    ensures p.DataTerm(y, w)(t) == y(p.TopOf(t)) * w(p.WeiOf(t))
  {
  }

  lemma DataNext(p: Shape, done: set<Tap>, t: Tap)
    requires p.Has(t) && DataDone(p, done, t.b, t.c, t.o, t.j, t.i, t.kj, t.ki)
    ensures t !in done
    ensures DataDone(p, if p.Lands(t) then done + {t} else done, t.b, t.c, t.o, t.j, t.i, t.kj, t.ki + 1)
  {
    hide Shape.Lands;
  }

  /** One gradient cell, added to every input cell it was made from. */
  method SpreadCell(p: Shape, bot: array<real>, lx: Layout, y: seq<real>, ly: Layout, w: seq<real>, lw: Layout, b: nat,
                    c: nat, o: nat, j: nat, i: nat, ghost done: set<Tap>, ghost before: seq<real>)
    returns (ghost next: set<Tap>)
    requires Undilated(p) && p.TopHas(Cell(b, o, j, i)) && c < p.inputs
    requires Room(p.TopCells(), ly, |y|) && Room(p.WeiCells(), lw, |w|) && Apart(p.BotCells(), lx)
    requires DataDone(p, done, b, c, o, j, i, 0, 0)
    requires Scattered(bot[..], before, lx, p.BotCells(), done, p.BotKey(), p.DataTerm(View(y, ly), View(w, lw)))
    modifies bot
    ensures DataDone(p, next, b, c, o, j, i + 1, 0, 0)
    ensures Scattered(bot[..], before, lx, p.BotCells(), next, p.BotKey(), p.DataTerm(View(y, ly), View(w, lw)))
  {
    hide Layout.At, Shape.RowAt, Shape.ColumnAt, Apart, Place, Shape.DataTerm, View, Scattered;
    ghost var f := p.DataTerm(View(y, ly), View(w, lw));
    next := done;
    assert Cell(b, o, j, i) in p.TopCells();
    var value := Read(y, ly, Cell(b, o, j, i));
    for kj := 0 to p.filterHeight
      invariant DataDone(p, next, b, c, o, j, i, kj, 0)
      invariant Scattered(bot[..], before, lx, p.BotCells(), next, p.BotKey(), f)
    {
      PlaceIsRow(p, j, kj);
      var botY := Place(j, p.strideH, kj, p.padH);
      for ki := 0 to p.filterWidth
        invariant DataDone(p, next, b, c, o, j, i, kj, ki)
        invariant Scattered(bot[..], before, lx, p.BotCells(), next, p.BotKey(), f)
      {
        PlaceIsColumn(p, i, ki);
        var botX := Place(i, p.strideW, ki, p.padW);
        ghost var t := Tap(b, o, c, j, i, kj, ki);
        DataNext(p, next, t);
        if !(botY < 0 || botX < 0 || botY >= p.botHeight || botX >= p.botWidth) {
          assert p.WeiOf(t) in p.WeiCells() && p.BotOf(t) in p.BotCells();
          DataTermIs(p, View(y, ly), View(w, lw), t);
          var term := value * Read(w, lw, Cell(o, c, kj, ki));
          ScatterAdd(bot, lx, Cell(b, c, botY, botX), term, t, next, before, p.BotCells(), p.BotKey(), f);
          next := next + {t};
        }
      }
    }
  }

  method ConvBackwardDataDirect(p: Shape, bot: array<real>, lx: Layout, y: seq<real>, ly: Layout, w: seq<real>,
                                lw: Layout)
    requires Undilated(p)
    requires Room(p.TopCells(), ly, |y|) && Room(p.WeiCells(), lw, |w|)
    requires Room(p.BotCells(), lx, bot.Length) && Apart(p.BotCells(), lx)
    modifies bot
    ensures forall u :: u in p.BotCells() ==>
              bot[lx.At(u)] == old(bot[lx.At(u)]) + p.BackwardData(View(y, ly), View(w, lw))(u)
    ensures forall q :: 0 <= q < bot.Length && Misses(p.BotCells(), lx, q) ==> bot[q] == old(bot[q])
  {
    hide Layout.At, Shape.RowAt, Shape.ColumnAt, Apart, Shape.BotOf;
    ghost var f := p.DataTerm(View(y, ly), View(w, lw));
    ghost var done: set<Tap> := {};
    ScatterStart(bot[..], lx, p.BotCells(), p.BotKey(), f);
    for b := 0 to p.batches
      invariant DataDone(p, done, b, 0, 0, 0, 0, 0, 0)
      invariant Scattered(bot[..], old(bot[..]), lx, p.BotCells(), done, p.BotKey(), f)
    {
      for c := 0 to p.inputs
        invariant DataDone(p, done, b, c, 0, 0, 0, 0, 0)
        invariant Scattered(bot[..], old(bot[..]), lx, p.BotCells(), done, p.BotKey(), f)
      {
        for o := 0 to p.outputs
          invariant DataDone(p, done, b, c, o, 0, 0, 0, 0)
          invariant Scattered(bot[..], old(bot[..]), lx, p.BotCells(), done, p.BotKey(), f)
        {
          for j := 0 to p.topHeight
            invariant DataDone(p, done, b, c, o, j, 0, 0, 0)
            invariant Scattered(bot[..], old(bot[..]), lx, p.BotCells(), done, p.BotKey(), f)
          {
            for i := 0 to p.topWidth
              invariant DataDone(p, done, b, c, o, j, i, 0, 0)
              invariant Scattered(bot[..], old(bot[..]), lx, p.BotCells(), done, p.BotKey(), f)
            {
              done := SpreadCell(p, bot, lx, y, ly, w, lw, b, c, o, j, i, done, old(bot[..]));
            }
          }
        }
      }
    }
    assert done == p.Landing();
  }

  // ---- Backward to the weights ----

  /** The landing taps before `(b, o, c, kj, ki, j, i)` in the order of the weight loops. */
  ghost predicate WeightsDone(p: Shape, done: set<Tap>, b: int, o: int, c: int, kj: int, ki: int, j: int, i: int) {
    forall t :: t in done <==> p.Has(t) && p.Lands(t) && WeightsBefore(t, b, o, c, kj, ki, j, i)
  }

  predicate WeightsBefore(t: Tap, b: int, o: int, c: int, kj: int, ki: int, j: int, i: int) {
    t.b < b || (t.b == b && (t.o < o || (t.o == o && (t.c < c || (t.c == c && (t.kj < kj || (t.kj == kj &&
    (t.ki < ki || (t.ki == ki && (t.j < j || (t.j == j && t.i < i)))))))))))
  }

  lemma WeightTermIs(p: Shape, x: Tensor, y: Tensor, t: Tap)
    ensures p.WeightTerm(x, y)(t) == x(p.BotOf(t)) * y(p.TopOf(t))
  {
  }

  lemma WeightsNext(p: Shape, done: set<Tap>, t: Tap)
    requires p.Has(t) && WeightsDone(p, done, t.b, t.o, t.c, t.kj, t.ki, t.j, t.i)
    ensures t !in done
    ensures WeightsDone(p, if p.Lands(t) then done + {t} else done, t.b, t.o, t.c, t.kj, t.ki, t.j, t.i + 1)
  {
    hide Shape.Lands;
  }

  /** One weight of one image, gathered over the output plane. */
  method GatherWeight(p: Shape, wei: array<real>, lw: Layout, x: seq<real>, lx: Layout, y: seq<real>, ly: Layout,
                      b: nat, o: nat, c: nat, kj: nat, ki: nat, ghost done: set<Tap>, ghost before: seq<real>)
    returns (ghost next: set<Tap>)
    requires b < p.batches && p.WeiHas(Cell(o, c, kj, ki))
    requires Room(p.BotCells(), lx, |x|) && Room(p.TopCells(), ly, |y|) && Apart(p.WeiCells(), lw)
    requires WeightsDone(p, done, b, o, c, kj, ki, 0, 0)
    requires Scattered(wei[..], before, lw, p.WeiCells(), done, p.WeiKey(), p.WeightTerm(View(x, lx), View(y, ly)))
    modifies wei
    ensures WeightsDone(p, next, b, o, c, kj, ki + 1, 0, 0)
    ensures Scattered(wei[..], before, lw, p.WeiCells(), next, p.WeiKey(), p.WeightTerm(View(x, lx), View(y, ly)))
  {
    hide Layout.At, Apart, Shape.RowAt, Shape.ColumnAt, Shape.WeightTerm, View, Scattered;
    ghost var f := p.WeightTerm(View(x, lx), View(y, ly));
    next := done;
    assert Cell(o, c, kj, ki) in p.WeiCells();
    for j := 0 to p.topHeight
      invariant WeightsDone(p, next, b, o, c, kj, ki, j, 0)
      invariant Scattered(wei[..], before, lw, p.WeiCells(), next, p.WeiKey(), f)
    {
      for i := 0 to p.topWidth
        invariant WeightsDone(p, next, b, o, c, kj, ki, j, i)
        invariant Scattered(wei[..], before, lw, p.WeiCells(), next, p.WeiKey(), f)
      {
        var inI := p.RowAt(j, kj);
        var inJ := p.ColumnAt(i, ki);
        ghost var t := Tap(b, o, c, j, i, kj, ki);
        WeightsNext(p, next, t);
        if inI >= 0 && inI < p.botHeight && inJ >= 0 && inJ < p.botWidth {
          assert p.BotOf(t) in p.BotCells() && p.TopOf(t) in p.TopCells();
          WeightTermIs(p, View(x, lx), View(y, ly), t);
          var term := Read(x, lx, Cell(b, c, inI, inJ)) * Read(y, ly, Cell(b, o, j, i));
          ScatterAdd(wei, lw, Cell(o, c, kj, ki), term, t, next, before, p.WeiCells(), p.WeiKey(), f);
          next := next + {t};
        }
      }
    }
  }

  method GatherWeights(p: Shape, wei: array<real>, lw: Layout, x: seq<real>, lx: Layout, y: seq<real>, ly: Layout)
    requires Room(p.BotCells(), lx, |x|) && Room(p.TopCells(), ly, |y|)
    requires Room(p.WeiCells(), lw, wei.Length) && Apart(p.WeiCells(), lw)
    modifies wei
    ensures Scattered(wei[..], old(wei[..]), lw, p.WeiCells(), p.Landing(), p.WeiKey(),
                      p.WeightTerm(View(x, lx), View(y, ly)))
  {
    hide Layout.At, Shape.RowAt, Shape.ColumnAt, Apart, Shape.BotOf, Shape.WeightTerm;
    ghost var f := p.WeightTerm(View(x, lx), View(y, ly));
    ghost var done: set<Tap> := {};
    ScatterStart(wei[..], lw, p.WeiCells(), p.WeiKey(), f);
    for b := 0 to p.batches
      invariant WeightsDone(p, done, b, 0, 0, 0, 0, 0, 0)
      invariant Scattered(wei[..], old(wei[..]), lw, p.WeiCells(), done, p.WeiKey(), f)
    {
      for o := 0 to p.outputs
        invariant WeightsDone(p, done, b, o, 0, 0, 0, 0, 0)
        invariant Scattered(wei[..], old(wei[..]), lw, p.WeiCells(), done, p.WeiKey(), f)
      {
        for c := 0 to p.inputs
          invariant WeightsDone(p, done, b, o, c, 0, 0, 0, 0)
          invariant Scattered(wei[..], old(wei[..]), lw, p.WeiCells(), done, p.WeiKey(), f)
        {
          for kj := 0 to p.filterHeight
            invariant WeightsDone(p, done, b, o, c, kj, 0, 0, 0)
            invariant Scattered(wei[..], old(wei[..]), lw, p.WeiCells(), done, p.WeiKey(), f)
          {
            for ki := 0 to p.filterWidth
              invariant WeightsDone(p, done, b, o, c, kj, ki, 0, 0)
              invariant Scattered(wei[..], old(wei[..]), lw, p.WeiCells(), done, p.WeiKey(), f)
            {
              done := GatherWeight(p, wei, lw, x, lx, y, ly, b, o, c, kj, ki, done, old(wei[..]));
            }
          }
        }
      }
    }
    assert done == p.Landing();
  }

  function WeightCount(p: Shape): nat { p.outputs * (p.inputs * (p.filterHeight * p.filterWidth)) }

  /** Sums into a fresh zero tensor of as many places as there are weights, and copies these out. */
  method ConvBackwardWeights(p: Shape, dwei: array<real>, lw: Layout, x: seq<real>, lx: Layout, y: seq<real>,
                             ly: Layout)
    requires Room(p.BotCells(), lx, |x|) && Room(p.TopCells(), ly, |y|)
    requires Room(p.WeiCells(), lw, WeightCount(p)) && Apart(p.WeiCells(), lw) && WeightCount(p) <= dwei.Length
    modifies dwei
    ensures forall u :: u in p.WeiCells() ==> dwei[lw.At(u)] == p.BackwardWeights(View(x, lx), View(y, ly))(u)
    ensures forall q :: 0 <= q < WeightCount(p) && Misses(p.WeiCells(), lw, q) ==> dwei[q] == 0.0
    ensures forall q :: WeightCount(p) <= q < dwei.Length ==> dwei[q] == old(dwei[q])
  {
    hide Layout.At, Apart, WeightCount;
    var wei := new real[WeightCount(p)](_ => 0.0);
    ghost var f := p.WeightTerm(View(x, lx), View(y, ly));
    GatherWeights(p, wei, lw, x, lx, y, ly);
    assert forall u :: u in p.WeiCells() ==> wei[lw.At(u)] == Share(p.Landing(), p.WeiKey(), f, u);
    for i := 0 to WeightCount(p)
      modifies dwei
      invariant forall q :: 0 <= q < i ==> dwei[q] == wei[q]
      invariant forall q :: WeightCount(p) <= q < dwei.Length ==> dwei[q] == old(dwei[q])
    {
      dwei[i] := wei[i];
    }
  }

  /** With a bias the loops leave what they leave without, plus in every cell the bias of its channel. */
  lemma BiasAdds(p: Shape, x: Tensor, w: Tensor, padding: real, bias: seq<real>, lt: Layout, before: seq<real>,
                 plain: seq<real>, biased: seq<real>)
    requires |bias| == p.outputs
    requires Filled(plain, before, lt, p.TopCells(), Biased(p, x, w, padding, []))
    requires Filled(biased, before, lt, p.TopCells(), Biased(p, x, w, padding, bias))
    ensures forall u :: u in p.TopCells() ==>
              0 <= u.c < p.outputs && 0 <= lt.At(u) < |plain| == |biased|
              && biased[lt.At(u)] == plain[lt.At(u)] + bias[u.c]
    ensures forall q :: 0 <= q < |plain| && Misses(p.TopCells(), lt, q) ==> biased[q] == plain[q]
  {
    hide Layout.At, Shape.Forward;
  }

  /** What the three loops leave in memory are the three gradients of one trilinear form. */
  lemma LoopsShareOneForm(p: Shape, x: seq<real>, lx: Layout, w: seq<real>, lw: Layout, y: seq<real>, ly: Layout,
                          top: seq<real>, topBefore: seq<real>, bot: seq<real>, dwei: seq<real>)
    requires Filled(top, topBefore, ly, p.TopCells(), Biased(p, View(x, lx), View(w, lw), 0.0, []))
    requires forall u :: u in p.BotCells() ==> View(bot, lx)(u) == p.BackwardData(View(y, ly), View(w, lw))(u)
    requires forall u :: u in p.WeiCells() ==> View(dwei, lw)(u) == p.BackwardWeights(View(x, lx), View(y, ly))(u)
    ensures Inner(p.TopCells(), View(top, ly), View(y, ly))
         == Inner(p.BotCells(), View(bot, lx), View(x, lx))
         == Inner(p.WeiCells(), View(dwei, lw), View(w, lw))
  {
    OneTrilinearForm(p, View(x, lx), View(w, lw), View(y, ly));
    InnerSame(p.TopCells(), View(top, ly), p.Forward(View(x, lx), View(w, lw), 0.0), View(y, ly));
    InnerSame(p.BotCells(), View(bot, lx), p.BackwardData(View(y, ly), View(w, lw)), View(x, lx));
    InnerSame(p.WeiCells(), View(dwei, lw), p.BackwardWeights(View(x, lx), View(y, ly)), View(w, lw));
  }

  lemma InnerSame(cells: set<Cell>, a: Tensor, b: Tensor, c: Tensor)
    requires forall u :: u in cells ==> a(u) == b(u)
    ensures Inner(cells, a, c) == Inner(cells, b, c)
  {
    SumSame(cells, Times(a, c), Times(b, c));
  }
}
