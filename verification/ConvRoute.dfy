/** The column routines in place, and backward-data through them. */
module ConvRoute {
  import opened Sums
  import opened ConvSpec
  import opened Tensors
  import opened ConvDirect
  import opened ConvColumns
  import opened ConvGemm

  /** Rows and channels of every image are packed; images may be further apart. */
  ghost predicate ImagePacked(win: Window, l: Layout) {
    l.c == win.height * win.width && l.y == win.width && l.n >= win.channels * (win.height * win.width)
  }

  lemma ImageIndex(win: Window, l: Layout, u: Cell)
    requires ImagePacked(win, l)
    ensures u.n * l.n + ((u.c * win.height + u.y) * win.width + u.x) == l.At(u)
  {
    assert (u.c * win.height + u.y) * win.width == u.c * (win.height * win.width) + u.y * win.width;
  }

  /** An image fills the stretch of memory from its base, and no two cells share a place. */
  lemma ImageIsSound(win: Window, l: Layout, b: nat)
    requires ImagePacked(win, l)
    ensures forall u :: u in win.Image(b) ==> b * l.n <= l.At(u) < b * l.n + win.channels * (win.height * win.width)
    ensures Apart(win.Image(b), l)
  {
    var plane := win.height * win.width;
    forall u | u in win.Image(b) ensures b * l.n <= l.At(u) < b * l.n + win.channels * plane {
      Below(win.width, win.height, u.y, u.x);
      Below(plane, win.channels, u.c, u.y * win.width + u.x);
    }
    forall u, v | u in win.Image(b) && v in win.Image(b) && l.At(u) == l.At(v) ensures u == v {
      Below(win.width, win.height, u.y, u.x);
      Below(win.width, win.height, v.y, v.x);
      Digits(plane, u.c, u.y * win.width + u.x, v.c, v.y * win.width + v.x);
      Digits(win.width, u.y, u.x, v.y, v.x);
    }
  }

  /** Column cells before `(r, h, w)`. */
  ghost predicate ColumnsDone(win: Window, b: int, done: set<Cell>, r: int, h: int, w: int)
    requires win.Valid()
  {
    forall k :: k in done <==> win.ColumnHas(b, k) && ColumnBefore(k, r, h, w)
  }

  predicate ColumnBefore(k: Cell, r: int, h: int, w: int) {
    k.c < r || (k.c == r && (k.y < h || (k.y == h && k.x < w)))
  }

  ghost predicate LandedDone(win: Window, b: int, done: set<Cell>, r: int, h: int, w: int)
    requires win.Valid()
  {
    forall k :: k in done <==> win.ColumnHas(b, k) && win.Shows(win.Source(k)) && ColumnBefore(k, r, h, w)
  }

  /** Columns of filter positions, `columnStride` apart; zero asks for the packed stride. */
  function ColumnLayout(win: Window, batchStride: nat, columnStride: nat): Layout
    requires win.Valid()
  {
    Layout(batchStride, if columnStride == 0 then win.HeightCol() * win.WidthCol() else columnStride, win.WidthCol())
  }

  method Im2Col(win: Window, b: nat, image: seq<real>, li: Layout, columns: array<real>, batchStride: nat,
                columnStride: nat)
    requires win.Valid() && ImagePacked(win, li) && b * li.n + win.channels * (win.height * win.width) <= |image|
    requires Room(win.Columns(b), ColumnLayout(win, batchStride, columnStride), columns.Length)
    requires Apart(win.Columns(b), ColumnLayout(win, batchStride, columnStride))
    modifies columns
    ensures Filled(columns[..], old(columns[..]), ColumnLayout(win, batchStride, columnStride), win.Columns(b),
                   win.Unfold(View(image, li)))
  {
    hide Positions, Layout.At, Filled, Apart, ImagePacked, Window.ChannelOf, Window.RowShift, Window.ColumnShift;
    hide Window.Rows;
    hide Window.Source, Window.Unfold, View;
    var lc := ColumnLayout(win, batchStride, columnStride);
    ghost var value := win.Unfold(View(image, li));
    ghost var done: set<Cell> := {};
    FillStart(columns[..], lc, value);
    for r := 0 to win.Rows()
      invariant Filled(columns[..], old(columns[..]), lc, done, value) && ColumnsDone(win, b, done, r, 0, 0)
    {
      for h := 0 to win.HeightCol()
        invariant Filled(columns[..], old(columns[..]), lc, done, value) && ColumnsDone(win, b, done, r, h, 0)
      {
        for w := 0 to win.WidthCol()
          invariant Filled(columns[..], old(columns[..]), lc, done, value) && ColumnsDone(win, b, done, r, h, w)
        {
          ghost var data := columns[..];
          assert Cell(b, r, h, w) in win.Columns(b);
          var cell := UnfoldedCell(win, image, li, b, r, h, w);
          columns[lc.At(Cell(b, r, h, w))] := cell;
          FillStep(data, old(columns[..]), lc, win.Columns(b), done, value, Cell(b, r, h, w), columns[..]);
          done := done + {Cell(b, r, h, w)};
        }
      }
    }
    assert done == win.Columns(b);
  }

  method UnfoldedCell(win: Window, image: seq<real>, li: Layout, b: nat, r: nat, h: nat, w: nat) returns (value: real)
    requires win.Valid() && ImagePacked(win, li) && b * li.n + win.channels * (win.height * win.width) <= |image|
    requires win.ColumnHas(b, Cell(b, r, h, w))
    ensures value == win.Unfold(View(image, li))(Cell(b, r, h, w))
  {
    hide Positions, Layout.At, ImagePacked, Window.ChannelOf, Window.RowShift, Window.ColumnShift;
    var k := Cell(b, r, h, w);
    var wOffset, hOffset, channel := win.ColumnShift(r), win.RowShift(r), win.ChannelOf(r);
    var hPad, wPad := h * win.stride - win.pad + hOffset, w * win.stride - win.pad + wOffset;
    ghost var u := Cell(b, channel, hPad, wPad);
    assert win.Source(k) == u;
    if hPad >= 0 && hPad < win.height && wPad >= 0 && wPad < win.width {
      SourceInImage(win, b, k);
      ImageIsSound(win, li, b);
      ImageIndex(win, li, u);
      assert u in win.Image(b);
      value := image[b * li.n + ((channel * win.height + hPad) * win.width + wPad)];
    } else {
      value := 0.0;
    }
  }

  /** Where column cell `(c, h, w)` lies when columns are packed. */
  lemma ColumnIndex(win: Window, batchStride: nat, k: Cell)
    requires win.Valid()
    ensures k.n * batchStride + ((k.c * win.HeightCol() + k.y) * win.WidthCol() + k.x)
            == ColumnLayout(win, batchStride, 0).At(k)
  {
    hide Positions;
    assert (k.c * win.HeightCol() + k.y) * win.WidthCol()
        == k.c * (win.HeightCol() * win.WidthCol()) + k.y * win.WidthCol();
  }

  method ClearImage(bot: array<real>, lo: nat, hi: nat)
    requires lo <= hi <= bot.Length
    modifies bot
    ensures forall q :: 0 <= q < bot.Length ==> bot[q] == if lo <= q < hi then 0.0 else old(bot[q])
  {
    for q := lo to hi
      invariant forall k :: 0 <= k < bot.Length ==> bot[k] == if lo <= k < q then 0.0 else old(bot[k])
    {
      bot[q] := 0.0;
    }
  }

  method Col2Im(win: Window, b: nat, columns: seq<real>, batchStride: nat, bot: array<real>, li: Layout)
    requires win.Valid() && ImagePacked(win, li) && b * li.n + win.channels * (win.height * win.width) <= bot.Length
    requires Room(win.Columns(b), ColumnLayout(win, batchStride, 0), |columns|)
    modifies bot
    ensures forall u :: u in win.Image(b) ==>
              0 <= li.At(u) < bot.Length
              && bot[li.At(u)] == win.Fold(b, View(columns, ColumnLayout(win, batchStride, 0)))(u)
    ensures forall q :: 0 <= q < bot.Length && !(b * li.n <= q < b * li.n + win.channels * (win.height * win.width)) ==>
              bot[q] == old(bot[q])
  {
    hide Layout.At, Apart, Positions, Window.Source, Window.Rows, ColumnLayout;
    ghost var f := View(columns, ColumnLayout(win, batchStride, 0));
    ghost var done: set<Cell> := {};
    ImageIsSound(win, li, b);
    ClearImage(bot, b * li.n, b * li.n + win.channels * (win.height * win.width));
    ghost var cleared := bot[..];
    ScatterStart(bot[..], li, win.Image(b), win.SourceKey(), f);
    for r := 0 to win.Rows()
      invariant Scattered(bot[..], cleared, li, win.Image(b), done, win.SourceKey(), f)
      invariant LandedDone(win, b, done, r, 0, 0)
    {
      for h := 0 to win.HeightCol()
        invariant Scattered(bot[..], cleared, li, win.Image(b), done, win.SourceKey(), f)
        invariant LandedDone(win, b, done, r, h, 0)
      {
        for w := 0 to win.WidthCol()
          invariant Scattered(bot[..], cleared, li, win.Image(b), done, win.SourceKey(), f)
          invariant LandedDone(win, b, done, r, h, w)
        {
          done := FoldCell(win, b, columns, batchStride, bot, li, r, h, w, done, cleared);
        }
      }
    }
    assert done == win.Landed(b);
    forall u | u in win.Image(b) ensures bot[li.At(u)] == win.Fold(b, f)(u) {
      assert cleared[li.At(u)] == 0.0;
    }
    forall q | 0 <= q < bot.Length && !(b * li.n <= q < b * li.n + win.channels * (win.height * win.width))
      ensures Misses(win.Image(b), li, q)
    {
    }
  }

  method FoldCell(win: Window, b: nat, columns: seq<real>, batchStride: nat, bot: array<real>, li: Layout, r: nat,
                  h: nat, w: nat, ghost done: set<Cell>, ghost before: seq<real>)
    returns (ghost next: set<Cell>)
    requires win.Valid() && ImagePacked(win, li) && win.ColumnHas(b, Cell(b, r, h, w)) && Apart(win.Image(b), li)
    requires Room(win.Columns(b), ColumnLayout(win, batchStride, 0), |columns|) && LandedDone(win, b, done, r, h, w)
    requires Scattered(bot[..], before, li, win.Image(b), done, win.SourceKey(),
                       View(columns, ColumnLayout(win, batchStride, 0)))
    modifies bot
    ensures LandedDone(win, b, next, r, h, w + 1)
    ensures Scattered(bot[..], before, li, win.Image(b), next, win.SourceKey(),
                      View(columns, ColumnLayout(win, batchStride, 0)))
  {
    hide Positions, Layout.At, ImagePacked, Apart, Scattered, Window.ChannelOf, Window.RowShift, Window.ColumnShift;
    hide ColumnLayout, Window.Rows;
    var k := Cell(b, r, h, w);
    var wOffset, hOffset, channel := win.ColumnShift(r), win.RowShift(r), win.ChannelOf(r);
    var hPad, wPad := h * win.stride - win.pad + hOffset, w * win.stride - win.pad + wOffset;
    var u := Cell(b, channel, hPad, wPad);
    assert win.Source(k) == u;
    next := done;
    if hPad >= 0 && hPad < win.height && wPad >= 0 && wPad < win.width {
      SourceInImage(win, b, k);
      ColumnIndex(win, batchStride, k);
      assert k in win.Columns(b);
      var term := columns[b * batchStride + ((r * win.HeightCol() + h) * win.WidthCol() + w)];
      ScatterAdd(bot, li, u, term, k, done, before, win.Image(b), win.SourceKey(),
                 View(columns, ColumnLayout(win, batchStride, 0)));
      next := done + {k};
    }
  }

  // ---- Backward-data through the matrix product ----

  function WeightMatrix(p: Shape, lw: Layout): Matrix {
    Matrix(0, p.outputs, WindowOf(p).Rows(), lw.n)
  }

  function Base(l: Layout, b: nat): nat { b * l.n }

  function TopMatrix(p: Shape, ly: Layout, b: nat): Matrix {
    Matrix(Base(ly, b), p.outputs, p.topHeight * p.topWidth, ly.c)
  }

  function ColumnMatrix(p: Shape, lc: Layout, b: nat): Matrix {
    Matrix(Base(lc, b), WindowOf(p).Rows(), p.topHeight * p.topWidth, p.topHeight * p.topWidth)
  }

  /** Columns of all images, packed. */
  function AllColumns(p: Shape): Layout {
    Layout((p.topHeight * p.topWidth) * WindowOf(p).Rows(), p.topHeight * p.topWidth, p.topWidth)
  }

  /** Filters are packed inside an output's row of weights, output planes are packed, input images are packed. */
  ghost predicate Routable(p: Shape, lw: Layout, wSize: nat, ly: Layout, ySize: nat, lx: Layout, botSize: nat) {
    && Foldable(p)
    && lw.c == p.filterHeight * p.filterWidth && lw.y == p.filterWidth && ly.y == p.topWidth
    && ImagePacked(WindowOf(p), lx)
    && WeightMatrix(p, lw).Inside(wSize)
    && (forall b: nat :: b < p.batches ==> TopMatrix(p, ly, b).Inside(ySize))
    && (forall b: nat :: b < p.batches ==> Base(lx, b) + ImageSize(p) <= botSize)
  }

  function ImageSize(p: Shape): nat { p.inputs * (p.botHeight * p.botWidth) }

  lemma WeightEntry(p: Shape, lw: Layout, w: seq<real>, k: Cell, o: int)
    requires Foldable(p) && lw.c == p.filterHeight * p.filterWidth && lw.y == p.filterWidth
    requires 0 <= k.c < WindowOf(p).Rows()
    ensures WeightMatrix(p, lw).Entry(w, true, k.c, o) == View(w, lw)(p.WeiOf(TapOf(p, k)(o)))
  {
    hide Positions;
    var win := WindowOf(p);
    RowEncodes(win, k.c);
    RowWithin(win, win.ChannelOf(k.c), win.RowShift(k.c), win.ColumnShift(k.c));
    WeightPlace(lw, o, win.ChannelOf(k.c), win.RowShift(k.c), win.ColumnShift(k.c), k.c);
  }

  lemma WeightPlace(lw: Layout, o: int, c: int, kj: int, ki: int, r: int)
    requires r == c * lw.c + (kj * lw.y + ki)
    ensures lw.At(Cell(o, c, kj, ki)) == o * lw.n + r
  {
  }

  lemma TopEntry(p: Shape, ly: Layout, y: seq<real>, k: Cell, o: int)
    requires Foldable(p) && ly.y == p.topWidth && 0 <= k.n
    ensures TopMatrix(p, ly, k.n).Entry(y, false, o, k.y * p.topWidth + k.x) == View(y, ly)(p.TopOf(TapOf(p, k)(o)))
  {
    hide Positions;
  }

  lemma ProductTermIs(p: Shape, lw: Layout, w: seq<real>, ly: Layout, y: seq<real>, k: Cell, o: int)
    requires Foldable(p) && lw.c == p.filterHeight * p.filterWidth && lw.y == p.filterWidth && ly.y == p.topWidth
    requires 0 <= k.n && 0 <= k.c < WindowOf(p).Rows()
    ensures ProductTerm(w, WeightMatrix(p, lw), true, y, TopMatrix(p, ly, k.n), false, k.c, k.y * p.topWidth + k.x)(o)
         == OutputTerm(p, View(y, ly), View(w, lw), k)(o)
  {
    hide Positions, WeightMatrix, TopMatrix, Matrix.Entry, View, TapOf, Shape.TopOf, Shape.WeiOf;
    WeightEntry(p, lw, w, k, o);
    TopEntry(p, ly, y, k, o);
  }

  /** The transposed product leaves exactly the column values. */
  lemma ProductIsColumnValue(p: Shape, lw: Layout, w: seq<real>, ly: Layout, y: seq<real>, k: Cell)
    requires Foldable(p) && lw.c == p.filterHeight * p.filterWidth && lw.y == p.filterWidth && ly.y == p.topWidth
    requires 0 <= k.n && 0 <= k.c < WindowOf(p).Rows()
    ensures Product(w, WeightMatrix(p, lw), true, y, TopMatrix(p, ly, k.n), false, k.c, k.y * p.topWidth + k.x)
         == ColumnValue(p, View(y, ly), View(w, lw), k)
  {
    hide Positions, ProductTerm, OutputTerm, View;
    var f := ProductTerm(w, WeightMatrix(p, lw), true, y, TopMatrix(p, ly, k.n), false, k.c, k.y * p.topWidth + k.x);
    var g := OutputTerm(p, View(y, ly), View(w, lw), k);
    forall o | o in Upto(p.outputs) ensures f(o) == g(o) { ProductTermIs(p, lw, w, ly, y, k, o); }
    SumSame(Upto(p.outputs), f, g);
  }

  lemma ColumnMatrixIsSound(p: Shape, b: nat, size: nat)
    requires b < p.batches && size == AllColumns(p).n * p.batches
    ensures ColumnMatrix(p, AllColumns(p), b).Inside(size) && ColumnMatrix(p, AllColumns(p), b).Separate()
  {
    var mc, plane, rows := ColumnMatrix(p, AllColumns(p), b), p.topHeight * p.topWidth, WindowOf(p).Rows();
    forall row, col | 0 <= row < mc.rows && 0 <= col < mc.cols ensures 0 <= mc.At(row, col) < size {
      Below(plane, rows, row, col);
      Below(plane * rows, p.batches, b, row * plane + col);
    }
    forall row, col, row', col' |
      0 <= row < mc.rows && 0 <= col < mc.cols && 0 <= row' < mc.rows && 0 <= col' < mc.cols
        && mc.At(row, col) == mc.At(row', col')
      ensures row == row' && col == col'
    {
      Digits(plane, row, col, row', col');
    }
  }

  /** Column cells lie where the matrix has its entries. */
  lemma ColumnCellAt(p: Shape, b: nat, k: Cell)
    requires Foldable(p) && k in WindowOf(p).Columns(b)
    ensures AllColumns(p) == ColumnLayout(WindowOf(p), AllColumns(p).n, 0)
    ensures 0 <= k.c < WindowOf(p).Rows() && 0 <= k.y * p.topWidth + k.x < p.topHeight * p.topWidth
    ensures AllColumns(p).At(k) == ColumnMatrix(p, AllColumns(p), b).At(k.c, k.y * p.topWidth + k.x)
  {
    hide Positions;
    Below(p.topWidth, p.topHeight, k.y, k.x);
  }

  /** One image: product, then fold. */
  method BackwardImage(p: Shape, w: seq<real>, lw: Layout, y: seq<real>, ly: Layout, columns: array<real>,
                       bot: array<real>, lx: Layout, b: nat)
    requires Routable(p, lw, |w|, ly, |y|, lx, bot.Length) && b < p.batches
    requires columns.Length == AllColumns(p).n * p.batches && columns != bot
    modifies columns, bot
    ensures forall u :: u in WindowOf(p).Image(b) ==>
              0 <= lx.At(u) < bot.Length && bot[lx.At(u)] == p.BackwardData(View(y, ly), View(w, lw))(u)
    ensures forall q :: 0 <= q < bot.Length && !(Base(lx, b) <= q < Base(lx, b) + ImageSize(p)) ==>
              bot[q] == old(bot[q])
  {
    hide Positions, Matrix.At, Layout.At, Product, ColumnValue, Shape.BackwardData, View, ImagePacked;
    var win, lc, mc := WindowOf(p), AllColumns(p), ColumnMatrix(p, AllColumns(p), b);
    ColumnMatrixIsSound(p, b, columns.Length);
    var ok := MatrixMultiply(w, WeightMatrix(p, lw), true, y, TopMatrix(p, ly, b), false, columns, mc, 1.0, 0.0);
    forall k | k in win.Columns(b)
      ensures 0 <= lc.At(k) < columns.Length && columns[lc.At(k)] == ColumnValue(p, View(y, ly), View(w, lw), k)
    {
      ColumnCellAt(p, b, k);
      ProductIsColumnValue(p, lw, w, ly, y, k);
    }
    FoldImage(p, w, lw, y, ly, columns, bot, lx, b);
  }

  method FoldImage(p: Shape, w: seq<real>, lw: Layout, y: seq<real>, ly: Layout, columns: array<real>, bot: array<real>,
                   lx: Layout, b: nat)
    requires Routable(p, lw, |w|, ly, |y|, lx, bot.Length) && b < p.batches && columns != bot
    requires forall k :: k in WindowOf(p).Columns(b) ==>
               0 <= AllColumns(p).At(k) < columns.Length
               && columns[AllColumns(p).At(k)] == ColumnValue(p, View(y, ly), View(w, lw), k)
    modifies bot
    ensures forall u :: u in WindowOf(p).Image(b) ==>
              0 <= lx.At(u) < bot.Length && bot[lx.At(u)] == p.BackwardData(View(y, ly), View(w, lw))(u)
    ensures forall q :: 0 <= q < bot.Length && !(Base(lx, b) <= q < Base(lx, b) + ImageSize(p)) ==>
              bot[q] == old(bot[q])
  {
    hide Positions, Layout.At, ColumnValue, Shape.BackwardData, Window.Fold, ImagePacked;
    var win, lc := WindowOf(p), AllColumns(p);
    LayoutsAgree(p);
    ghost var cells := View(columns[..], lc);
    assert Base(lx, b) + ImageSize(p) <= bot.Length;
    Col2Im(win, b, columns[..], lc.n, bot, lx);
    forall u | u in win.Image(b) ensures win.Fold(b, cells)(u) == p.BackwardData(View(y, ly), View(w, lw))(u) {
      FoldIsBackwardData(p, View(y, ly), View(w, lw), u, cells);
    }
  }

  lemma LayoutsAgree(p: Shape)
    requires Foldable(p)
    ensures AllColumns(p) == ColumnLayout(WindowOf(p), AllColumns(p).n, 0)
  {
    hide Positions;
  }

  lemma BasesApart(l: Layout, a: nat, b: nat, size: nat)
    requires a < b && size <= l.n
    ensures Base(l, a) + size <= Base(l, b)
  {
    assert (a + 1) * l.n <= b * l.n;
  }

  /** A place that belongs to no image. */
  ghost predicate InGap(p: Shape, lx: Layout, q: int) {
    forall b: nat :: b < p.batches ==> !(Base(lx, b) <= q < Base(lx, b) + ImageSize(p))
  }

  /** Image after image, through one buffer of columns. */
  method ConvBackwardDataGemm(p: Shape, w: seq<real>, lw: Layout, y: seq<real>, ly: Layout, bot: array<real>,
                              lx: Layout)
    requires Routable(p, lw, |w|, ly, |y|, lx, bot.Length)
    modifies bot
    ensures forall u :: u in p.BotCells() ==>
              0 <= lx.At(u) < bot.Length && bot[lx.At(u)] == p.BackwardData(View(y, ly), View(w, lw))(u)
    ensures forall q :: 0 <= q < bot.Length && InGap(p, lx, q) ==> bot[q] == old(bot[q])
  {
    hide Layout.At, Shape.BackwardData, View, Foldable, Base;
    var columns := new real[AllColumns(p).n * p.batches];
    for b := 0 to p.batches
      modifies columns, bot
      invariant forall u :: u in p.BotCells() && u.n < b ==>
                  0 <= lx.At(u) < bot.Length && bot[lx.At(u)] == p.BackwardData(View(y, ly), View(w, lw))(u)
      invariant forall q :: 0 <= q < bot.Length && InGap(p, lx, q) ==> bot[q] == old(bot[q])
    {
      ghost var earlier := bot[..];
      BackwardImage(p, w, lw, y, ly, columns, bot, lx, b);
      forall u | u in p.BotCells() && u.n < b + 1
        ensures 0 <= lx.At(u) < bot.Length && bot[lx.At(u)] == p.BackwardData(View(y, ly), View(w, lw))(u)
      {
        if u.n < b {
          CellInImage(p, lx, u);
          BasesApart(lx, u.n, b, ImageSize(p));
          assert bot[lx.At(u)] == earlier[lx.At(u)];
        } else {
          assert u in WindowOf(p).Image(b);
        }
      }
    }
  }

  lemma CellInImage(p: Shape, lx: Layout, u: Cell)
    requires ImagePacked(WindowOf(p), lx) && u in p.BotCells()
    ensures Base(lx, u.n) <= lx.At(u) < Base(lx, u.n) + ImageSize(p)
  {
    ImageIsSound(WindowOf(p), lx, u.n);
    assert u in WindowOf(p).Image(u.n);
  }
}
