/** Normalisation within a channel: a clipped square window per pixel. */
module LrnWithin {
  import opened Sums
  import opened Tensors
  import opened LrnWindow
  import opened LrnAcross

  function Max(a: int, b: int): int { if a >= b then a else b }

  function Min(a: int, b: int): int { if a <= b then a else b }

  /** The square of side `area` around `u`, clipped to the plane; `before` rows and columns come before `u`. */
  function Square(p: Lrn, u: Cell, before: int, after: int): (s: set<Cell>)
    ensures forall v :: v in s <==>
              v in p.Cells() && v.n == u.n && v.c == u.c
              && u.y - before <= v.y <= u.y + after && u.x - before <= v.x <= u.x + after
  {
    set v | v in p.Cells() && v.n == u.n && v.c == u.c && u.y - before <= v.y <= u.y + after
      && u.x - before <= v.x <= u.x + after
  }

  function SquareAt(x: Tensor): Tensor { u => x(u) * x(u) }

  function RatioAt(y: Tensor, dy: Tensor, scale: Tensor): Tensor {
    u => if scale(u) == 0.0 then 0.0 else dy(u) * y(u) / scale(u)
  }

  ghost function ScaleWithin(p: Lrn, x: Tensor, k: real, alpha: real): Tensor
    requires p.Sufficient()
  {
    (u: Cell) => k + SumOver(Square(p, u, p.PrePad(), p.pad), SquareAt(x)) * (alpha / (p.area * p.area) as real)
  }

  /** Of one side of the window: first place, end, and length before it is clipped. */
  datatype Extent = Extent(first: int, end: int, length: int)

  /** The source's clipping of one side; `before` places come before `at`, `after` may stick out at the end. */
  function ExtentOf(at: int, before: int, after: int, area: int, size: int): (e: Extent)
  {
    var first := at - before;
    var end := Min(first + area, size + after);
    Extent(Max(first, 0), Min(end, size), end - first)
  }

  /** The side is measured at its full length if and only if `at` lies before the end of the plane. */
  lemma ExtentIs(at: int, before: int, after: int, area: int, size: int)
    requires area == before + 1 + after
    ensures ExtentOf(at, before, after, area, size).length == area <==> at < size
    ensures at < size ==>
              ExtentOf(at, before, after, area, size) == Extent(Max(at - before, 0), Min(at + after + 1, size), area)
  {
  }

  /** The cells of the window above row `h`, and those of row `h` left of column `w`. */
  ghost predicate WindowDone(window: set<Cell>, done: set<Cell>, h: int, w: int) {
    forall v :: v in done <==> v in window && (v.y < h || (v.y == h && v.x < w))
  }

  method SumSquares(p: Lrn, x: seq<real>, lx: Layout, u: Cell, rows: Extent, columns: Extent) returns (accum: real)
    requires p.Sufficient() && u in p.Cells() && Room(p.Cells(), lx, |x|)
    requires rows == ExtentOf(u.y, p.PrePad(), p.pad, p.area, p.height)
    requires columns == ExtentOf(u.x, p.PrePad(), p.pad, p.area, p.width)
    ensures accum == SumOver(Square(p, u, p.PrePad(), p.pad), SquareAt(View(x, lx)))
  {
    hide Layout.At, View, SumOver, SquareAt, ExtentOf;
    ExtentIs(u.y, p.PrePad(), p.pad, p.area, p.height);
    ExtentIs(u.x, p.PrePad(), p.pad, p.area, p.width);
    ghost var window, f := Square(p, u, p.PrePad(), p.pad), SquareAt(View(x, lx));
    ghost var done: set<Cell> := {};
    SumEmpty(f);
    accum := 0.0;
    for h := rows.first to Max(rows.first, rows.end)
      invariant accum == SumOver(done, f) && WindowDone(window, done, h, columns.first)
    {
      for w := columns.first to Max(columns.first, columns.end)
        invariant accum == SumOver(done, f) && WindowDone(window, done, h, w)
      {
        var v := Cell(u.n, u.c, h, w);
        assert v in window;
        var value := Read(x, lx, v);
        SquareAtIs(View(x, lx), v, value);
        SumInsert(done, v, f);
        accum := accum + value * value;
        done := done + {v};
      }
    }
    assert done == window;
  }

  lemma SquareAtIs(x: Tensor, v: Cell, value: real)
    requires value == x(v)
    ensures SquareAt(x)(v) == value * value
  {
  }

  /** The scale of one pixel. */
  method ScaleCell(p: Lrn, k: real, alpha: real, x: seq<real>, lx: Layout, u: Cell) returns (scaled: real)
    requires p.Sufficient() && u in p.Cells() && Room(p.Cells(), lx, |x|)
    ensures scaled == ScaleWithin(p, View(x, lx), k, alpha)(u)
  {
    hide Layout.At, View, SumOver, ExtentOf, Room;
    var rows := ExtentOf(u.y, p.PrePad(), p.pad, p.area, p.height);
    var columns := ExtentOf(u.x, p.PrePad(), p.pad, p.area, p.width);
    ExtentIs(u.y, p.PrePad(), p.pad, p.area, p.height);
    ExtentIs(u.x, p.PrePad(), p.pad, p.area, p.width);
    AreaPositive(p);
    var accum := SumSquares(p, x, lx, u, rows, columns);
    scaled := k + accum * (alpha / (rows.length * columns.length) as real);
  }

  lemma AreaPositive(p: Lrn)
    requires p.Sufficient()
    ensures p.area * p.area >= 1
  {
  }

  ghost predicate CellsDone(p: Lrn, done: set<Cell>, b: int, o: int, j: int, i: int) {
    forall u :: u in done <==>
      u in p.Cells() && (u.n < b || (u.n == b && (u.c < o || (u.c == o && (u.y < j || (u.y == j && u.x < i))))))
  }

  method ForwardWithin(p: Lrn, s: Scaling, alpha: real, x: seq<real>, lx: Layout, scale: array<real>, ls: Layout,
                       top: array<real>, lt: Layout)
    returns (ok: bool)
    requires scale != top && Room(p.Cells(), lx, |x|) && Roomy(p, ls, scale.Length) && Roomy(p, lt, top.Length)
    modifies scale, top
    ensures ok <==> p.Sufficient()
    ensures !ok ==> scale[..] == old(scale[..]) && top[..] == old(top[..])
    ensures ok ==>
              ForwardSoFar(p, s, View(x, lx), ScaleWithin(p, View(x, lx), s.k, alpha), scale[..], old(scale[..]), ls,
                                top[..], old(top[..]), lt, p.Cells())
  {
    hide Layout.At, Roomy, Room, View, ForwardSoFar, ScaleWithin;
    if p.area < 1 + p.pad { return false; }
    ghost var value := ScaleWithin(p, View(x, lx), s.k, alpha);
    ghost var done: set<Cell> := {};
    NothingForward(p, s, View(x, lx), value, scale[..], ls, top[..], lt);
    for b := 0 to p.batches
      invariant ForwardSoFar(p, s, View(x, lx), value, scale[..], old(scale[..]), ls, top[..], old(top[..]), lt, done)
      invariant CellsDone(p, done, b, 0, 0, 0)
    {
      for o := 0 to p.channels
        invariant ForwardSoFar(p, s, View(x, lx), value, scale[..], old(scale[..]), ls, top[..], old(top[..]), lt, done)
        invariant CellsDone(p, done, b, o, 0, 0)
      {
        for j := 0 to p.height
          invariant ForwardSoFar(p, s, View(x, lx), value, scale[..], old(scale[..]), ls, top[..], old(top[..]), lt,
                                 done) && CellsDone(p, done, b, o, j, 0)
        {
          for i := 0 to p.width
            invariant ForwardSoFar(p, s, View(x, lx), value, scale[..], old(scale[..]), ls, top[..], old(top[..]), lt,
                                   done) && CellsDone(p, done, b, o, j, i)
          {
            var scaled := ScaleCell(p, s.k, alpha, x, lx, Cell(b, o, j, i));
            done := EmitForward(p, s, x, lx, scale, ls, top, lt, Cell(b, o, j, i), scaled, value, done, old(scale[..]),
                                old(top[..]));
          }
        }
      }
    }
    assert done == p.Cells();
    return true;
  }

  // ---- Backward ----

  ghost function GradientWithin(p: Lrn, s: Sources): Tensor
    requires p.Sufficient()
  {
    (u: Cell) =>
      View(s.dy, s.ldy)(u) * s.power(View(s.scale, s.ls)(u))
      - 2.0 * s.alpha * s.beta / (p.area * p.area) as real * View(s.x, s.lx)(u)
        * SumOver(Square(p, u, p.pad, p.PrePad()), RatioAt(View(s.y, s.ly), View(s.dy, s.ldy), View(s.scale, s.ls)))
  }

  method SumRatios(p: Lrn, s: Sources, u: Cell, rows: Extent, columns: Extent) returns (accum: real)
    requires p.Sufficient() && u in p.Cells() && s.Readable(p)
    requires rows == ExtentOf(u.y, p.pad, p.PrePad(), p.area, p.height)
    requires columns == ExtentOf(u.x, p.pad, p.PrePad(), p.area, p.width)
    ensures accum
            == SumOver(Square(p, u, p.pad, p.PrePad()),
                       RatioAt(View(s.y, s.ly), View(s.dy, s.ldy), View(s.scale, s.ls)))
  {
    hide Layout.At, View, SumOver, ExtentOf, RatioAt;
    ExtentIs(u.y, p.pad, p.PrePad(), p.area, p.height);
    ExtentIs(u.x, p.pad, p.PrePad(), p.area, p.width);
    ghost var window, f := Square(p, u, p.pad, p.PrePad()), RatioAt(View(s.y, s.ly), View(s.dy, s.ldy),
                                                                    View(s.scale, s.ls));
    ghost var done: set<Cell> := {};
    SumEmpty(f);
    accum := 0.0;
    for h := rows.first to Max(rows.first, rows.end)
      invariant accum == SumOver(done, f) && WindowDone(window, done, h, columns.first)
    {
      for w := columns.first to Max(columns.first, columns.end)
        invariant accum == SumOver(done, f) && WindowDone(window, done, h, w)
      {
        var v := Cell(u.n, u.c, h, w);
        assert v in window;
        var ratio := RatioCell(p, s, v);
        SumInsert(done, v, f);
        accum := accum + ratio;
        done := done + {v};
      }
    }
    assert done == window;
  }

  method RatioCell(p: Lrn, s: Sources, v: Cell) returns (ratio: real)
    requires v in p.Cells() && s.Readable(p)
    ensures ratio == RatioAt(View(s.y, s.ly), View(s.dy, s.ldy), View(s.scale, s.ls))(v)
  {
    hide Layout.At, View;
    ratio := Read(s.dy, s.ldy, v) * Read(s.y, s.ly, v) / Read(s.scale, s.ls, v);
  }

  method GradientCell(p: Lrn, s: Sources, u: Cell) returns (value: real)
    requires p.Sufficient() && u in p.Cells() && s.Readable(p)
    ensures value == GradientWithin(p, s)(u)
  {
    hide Layout.At, View, SumOver, ExtentOf, RatioAt;
    var rows := ExtentOf(u.y, p.pad, p.PrePad(), p.area, p.height);
    var columns := ExtentOf(u.x, p.pad, p.PrePad(), p.area, p.width);
    ExtentIs(u.y, p.pad, p.PrePad(), p.area, p.height);
    ExtentIs(u.x, p.pad, p.PrePad(), p.area, p.width);
    AreaPositive(p);
    var accum := SumRatios(p, s, u, rows, columns);
    var ratio := 2.0 * s.alpha * s.beta / (rows.length * columns.length) as real;
    value := Read(s.dy, s.ldy, u) * s.power(Read(s.scale, s.ls, u)) - ratio * Read(s.x, s.lx, u) * accum;
  }

  method BackwardWithin(p: Lrn, s: Sources, bot: array<real>, lb: Layout) returns (ok: bool)
    requires s.Readable(p) && Roomy(p, lb, bot.Length)
    modifies bot
    ensures ok <==> p.Sufficient()
    ensures !ok ==> bot[..] == old(bot[..])
    ensures ok ==> Filled(bot[..], old(bot[..]), lb, p.Cells(), GradientWithin(p, s))
  {
    hide Layout.At, Apart, View, Filled, GradientWithin, Sources.Readable;
    var prePad := p.area - 1 - p.pad;
    if prePad < 0 { return false; }
    ghost var value := GradientWithin(p, s);
    ghost var done: set<Cell> := {};
    FillStart(bot[..], lb, value);
    for b := 0 to p.batches
      invariant Filled(bot[..], old(bot[..]), lb, done, value) && CellsDone(p, done, b, 0, 0, 0)
    {
      for o := 0 to p.channels
        invariant Filled(bot[..], old(bot[..]), lb, done, value) && CellsDone(p, done, b, o, 0, 0)
      {
        for j := 0 to p.height
          invariant Filled(bot[..], old(bot[..]), lb, done, value) && CellsDone(p, done, b, o, j, 0)
        {
          for i := 0 to p.width
            invariant Filled(bot[..], old(bot[..]), lb, done, value) && CellsDone(p, done, b, o, j, i)
          {
            ghost var data := bot[..];
            var u := Cell(b, o, j, i);
            assert u in p.Cells();
            var gradient := GradientCell(p, s, u);
            bot[lb.At(u)] := gradient;
            FillStep(data, old(bot[..]), lb, p.Cells(), done, value, u, bot[..]);
            done := done + {u};
          }
        }
      }
    }
    assert done == p.Cells();
    return true;
  }
}
