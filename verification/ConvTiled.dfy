/** The tiled forward path as a whole: it writes what the direct loops write, wherever its guards let it run. */
module ConvTiled {
  import opened Sums
  import opened ConvSpec
  import opened Tensors
  import opened ConvDirect
  import opened ConvPrepare
  import opened ConvTile

  // ---- One tile ----

  function Shifted(tile: Tile, u: Cell): Cell { Cell(tile.b, tile.o + u.c, tile.row + u.y, tile.col + u.x) }

  ghost predicate UnitStride(p: Shape) { Undilated(p) && p.strideH == 1 && p.strideW == 1 }

  lemma TermsAgree(p: Shape, x: Tensor, w: Tensor, padding: real, t: Tap)
    requires UnitStride(p) && p.Has(t)
    ensures TileTerm(p, Padded(p, x, padding), w)(t) == p.ForwardTerm(x, w, padding)(t)
  {
    hide Shape.WeiOf, Shape.BotOf, TileTerm, Padded, Shape.ForwardTerm, Shape.Has;
    UnitBotOf(p, t);
    PaddedAt(p, x, padding, Cell(t.b, t.c, t.j + t.kj, t.i + t.ki), p.BotOf(t));
    ForwardTermIs(p, x, w, padding, t);
    TileTermIs(p, Padded(p, x, padding), w, t);
  }

  lemma UnitBotOf(p: Shape, t: Tap)
    requires UnitStride(p)
    ensures p.BotOf(t) == Cell(t.b, t.c, t.j + t.kj - p.padH, t.i + t.ki - p.padW)
  {
  }

  lemma TileTermIs(p: Shape, x: Tensor, w: Tensor, t: Tap)
    ensures TileTerm(p, x, w)(t) == x(Cell(t.b, t.c, t.j + t.kj, t.i + t.ki)) * w(p.WeiOf(t))
  {
  }

  /** The taps of a tile cell are the taps of the output cell it stands for. */
  lemma TileIsForward(p: Shape, ti: Tiling, tile: Tile, done: set<Tap>, x: Tensor, w: Tensor, padding: real, u: Cell)
    requires UnitStride(p) && Placed(p, ti, tile) && u in OutCells(ti)
    requires forall t :: t in done <==> InTile(p, ti, tile, t)
    ensures Share(done, OutKey(tile), TileTerm(p, Padded(p, x, padding), w), u)
            == p.Forward(x, w, padding)(Shifted(tile, u))
  {
    hide TileTerm, Padded, Shape.ForwardTerm, SumOver, UnitStride;
    var taps := Fibre(done, OutKey(tile), u);
    assert taps == Fibre(p.Taps(), p.TopKey(), Shifted(tile, u));
    forall t | t in taps
      ensures TileTerm(p, Padded(p, x, padding), w)(t) == p.ForwardTerm(x, w, padding)(t)
    {
      TermsAgree(p, x, w, padding, t);
    }
    SumSame(taps, TileTerm(p, Padded(p, x, padding), w), p.ForwardTerm(x, w, padding));
  }

  method ComputeTile(p: Shape, ti: Tiling, tile: Tile, out: array<real>, stage: array<real>, ls: Layout,
                     weiStage: array<real>, newBot: seq<real>, ln: Layout, newWei: seq<real>, ghost newHeight: nat,
                     ghost newWidth: nat, oBlock: nat, ghost x: Tensor, ghost w: Tensor, ghost padding: real)
    requires UnitStride(p) && Placed(p, ti, tile) && tile.o == oBlock * ti.outTiles
    requires Staged(p, ti, stage, weiStage, out, ls)
    requires Sources(p, ti, newBot, ln, newHeight, newWidth, Padded(p, x, padding), newWei, w)
    modifies out, stage, weiStage
    ensures forall u :: u in OutCells(ti) ==>
              0 <= OutLayout(ti).At(u) < out.Length
              && out[OutLayout(ti).At(u)] == p.Forward(x, w, padding)(Shifted(tile, u))
  {
    hide UnitStride, Placed, Staged, Sources, OutCells, Shape.Forward, Layout.At, TileTerm, InTile, OutLayout;
    ghost var done, zeros := TileChannels(p, ti, tile, out, stage, ls, weiStage, newBot, ln, newWei, newHeight,
                                          newWidth, oBlock, Padded(p, x, padding), w);
    forall u | u in OutCells(ti)
      ensures 0 <= OutLayout(ti).At(u) < out.Length
              && out[OutLayout(ti).At(u)] == p.Forward(x, w, padding)(Shifted(tile, u))
    {
      TileIsForward(p, ti, tile, done, x, w, padding, u);
    }
  }

  predicate TileHas(ti: Tiling, tile: Tile, u: Cell) {
    && u.n == tile.b && tile.o <= u.c < tile.o + ti.outTiles
    && tile.row <= u.y < tile.row + ti.tile1 && tile.col <= u.x < tile.col + ti.tile0
  }

  ghost predicate Written(ti: Tiling, tile: Tile, before: set<Cell>, done: set<Cell>, o: int, j: int, i: int) {
    forall u :: u in done <==>
      u in before || (TileHas(ti, tile, u) && (u.c - tile.o < o || (u.c - tile.o == o &&
      (u.y - tile.row < j || (u.y - tile.row == j && u.x - tile.col < i)))))
  }

  /** Copies the tile to its place in the output. */
  method WriteTile(p: Shape, ti: Tiling, tile: Tile, out: seq<real>, top: array<real>, lt: Layout,
                   ghost before: set<Cell>, ghost value: Tensor, ghost original: seq<real>)
    returns (ghost done: set<Cell>)
    requires Placed(p, ti, tile) && Room(p.TopCells(), lt, top.Length) && Apart(p.TopCells(), lt)
    requires forall u :: u in OutCells(ti) ==>
               0 <= OutLayout(ti).At(u) < |out| && out[OutLayout(ti).At(u)] == value(Shifted(tile, u))
    requires Filled(top[..], original, lt, before, value) && before <= p.TopCells()
    modifies top
    ensures Filled(top[..], original, lt, done, value) && done <= p.TopCells()
    ensures forall u :: u in done <==> u in before || TileHas(ti, tile, u)
  {
    hide Layout.At, Filled, Apart, OutLayout;
    done := before;
    var o := 0;
    while o < ti.outTiles && tile.o + o < p.outputs
      invariant 0 <= o <= ti.outTiles
      invariant Filled(top[..], original, lt, done, value) && Written(ti, tile, before, done, o, 0, 0)
    {
      for j := 0 to ti.tile1
        invariant Filled(top[..], original, lt, done, value) && Written(ti, tile, before, done, o, j, 0)
      {
        for i := 0 to ti.tile0
          invariant Filled(top[..], original, lt, done, value) && Written(ti, tile, before, done, o, j, i)
        {
          ghost var data, u := top[..], Cell(tile.b, tile.o + o, tile.row + j, tile.col + i);
          assert u in p.TopCells() && Cell(0, o, j, i) in OutCells(ti) && Shifted(tile, Cell(0, o, j, i)) == u;
          top[lt.At(Cell(tile.b, tile.o + o, tile.row + j, tile.col + i))] := out[OutLayout(ti).At(Cell(0, o, j, i))];
          FillStep(data, original, lt, p.TopCells(), done, value, u, top[..]);
          done := done + {u};
        }
      }
      o := o + 1;
    }
  }

  // ---- The grid of tiles ----

  function Ceiling(a: nat, b: nat): nat
    requires b >= 1
  {
    (a + b - 1) / b
  }

  lemma CeilingIs(a: nat, b: nat, t: nat)
    requires b >= 1
    ensures t < Ceiling(a, b) <==> t * b < a
  {
    var q, r := Ceiling(a, b), (a + b - 1) % b;
    assert q * b + r == a + b - 1;
    if t < q { assert (t + 1) * b <= q * b; } else { assert t * b >= q * b; }
  }

  function RowGroups(p: Shape, ti: Tiling): nat
    requires ti.Valid()
  {
    Ceiling(p.topHeight, Side(ti.groups1, ti.tile1))
  }

  function ColumnGroups(p: Shape, ti: Tiling): nat
    requires ti.Valid()
  {
    Ceiling(p.topWidth, Side(ti.groups0, ti.tile0))
  }

  function Side(groups: nat, tile: nat): (side: nat)
    ensures groups >= 1 && tile >= 1 ==> side >= 1
  {
    groups * tile
  }

  /** How many tile columns the guards let run; the width guard multiplies by the tile height. */
  function ColumnsRun(p: Shape, ti: Tiling): nat
    requires ti.Valid()
  {
    var wanted, groups := Ceiling(p.topWidth, ti.tile1), Side(ti.groups0, ColumnGroups(p, ti));
    if wanted < groups then wanted else groups
  }

  predicate ColumnRuns(p: Shape, ti: Tiling, t: nat)
    requires ti.Valid()
  {
    t < Side(ti.groups0, ColumnGroups(p, ti)) && Side(t, ti.tile1) < p.topWidth
  }

  lemma ColumnsRunIs(p: Shape, ti: Tiling, t: nat)
    requires ti.Valid()
    ensures ColumnRuns(p, ti, t) <==> t < ColumnsRun(p, ti)
  {
    CeilingIs(p.topWidth, ti.tile1, t);
  }

  /** The guard admits exactly the tile columns that begin inside the width if and only if the two counts agree. */
  lemma WidthGuardIsExact(p: Shape, ti: Tiling)
    requires ti.Valid()
    ensures (forall t: nat :: ColumnRuns(p, ti, t) <==> Side(t, ti.tile0) < p.topWidth)
       <==> ColumnsRun(p, ti) == Ceiling(p.topWidth, ti.tile0)
  {
    var run, all := ColumnsRun(p, ti), Ceiling(p.topWidth, ti.tile0);
    forall t: nat ensures (ColumnRuns(p, ti, t) <==> t < run) && (Side(t, ti.tile0) < p.topWidth <==> t < all) {
      ColumnsRunIs(p, ti, t);
      CeilingIs(p.topWidth, ti.tile0, t);
    }
    if run != all {
      var t := if run < all then run else all;
      assert ColumnRuns(p, ti, t) != (Side(t, ti.tile0) < p.topWidth);
    }
  }

  /** Square tiles always meet the condition. */
  lemma SquareTilesRun(p: Shape, ti: Tiling)
    requires ti.Valid() && ti.tile1 == ti.tile0
    ensures ColumnsRun(p, ti) == Ceiling(p.topWidth, ti.tile0)
  {
    var wanted, groups := Ceiling(p.topWidth, ti.tile0), ColumnGroups(p, ti);
    CeilingIs(p.topWidth, ti.tile0, Side(ti.groups0, groups));
    CeilingIs(p.topWidth, Side(ti.groups0, ti.tile0), groups);
    assert groups * (ti.groups0 * ti.tile0) == ti.groups0 * groups * ti.tile0;
  }

  /** Tiles of two rows and one column leave the second of two columns out. */
  lemma TallTilesMissAColumn()
    ensures var p := Shape(1, 1, 1, 2, 2, 2, 2, 1, 1, 1, 1, 0, 0, 1, 1);
            var ti := Tiling(1, 1, 2, 1, 1);
            ti.Valid() && ColumnsRun(p, ti) == 1 && Ceiling(p.topWidth, ti.tile0) == 2 && !ColumnRuns(p, ti, 1)
  {
  }

  /** No tile column that runs sticks out of the width if and only if all of them together fit it. */
  lemma ColumnsInside(p: Shape, ti: Tiling)
    requires ti.Valid()
    ensures (forall t: nat :: ColumnRuns(p, ti, t) ==> Side(t, ti.tile0) + ti.tile0 <= p.topWidth)
       <==> ColumnsRun(p, ti) * ti.tile0 <= p.topWidth
  {
    var run := ColumnsRun(p, ti);
    hide ColumnsRun, ColumnRuns;
    if run * ti.tile0 <= p.topWidth {
      forall t: nat | ColumnRuns(p, ti, t) ensures Side(t, ti.tile0) + ti.tile0 <= p.topWidth {
        ColumnsRunIs(p, ti, t);
        FitsUnder(t, run, ti.tile0);
      }
    } else {
      ColumnsRunIs(p, ti, run - 1);
      assert Side(run - 1, ti.tile0) + ti.tile0 == run * ti.tile0;
    }
  }

  /** In a packed output every place the running tiles write lies in the buffer if and only if no column sticks out. */
  lemma PackedSpill(p: Shape, ti: Tiling)
    requires ti.Valid() && p.batches >= 1 && p.outputs >= 1 && p.topHeight >= 1
    ensures Room(Grid(p.batches, p.outputs, p.topHeight, ColumnsRun(p, ti) * ti.tile0),
                 Packed(p.outputs, p.topHeight, p.topWidth), p.batches * (p.outputs * (p.topHeight * p.topWidth)))
       <==> ColumnsRun(p, ti) * ti.tile0 <= p.topWidth
  {
    hide ColumnsRun, Layout.At;
    var extent, l := ColumnsRun(p, ti) * ti.tile0, Packed(p.outputs, p.topHeight, p.topWidth);
    if extent <= p.topWidth {
      PackedIsSound(p.batches, p.outputs, p.topHeight, p.topWidth);
      assert Grid(p.batches, p.outputs, p.topHeight, extent) <= Grid(p.batches, p.outputs, p.topHeight, p.topWidth);
    } else {
      var u := Cell(p.batches - 1, p.outputs - 1, p.topHeight - 1, extent - 1);
      assert u in Grid(p.batches, p.outputs, p.topHeight, extent);
      PackedAt(p.outputs, p.topHeight, p.topWidth, u);
      LastRow(p.batches, p.outputs, p.topHeight, p.topWidth);
    }
  }

  lemma LastRow(n: nat, c: nat, h: nat, w: nat)
    requires n >= 1 && c >= 1 && h >= 1
    ensures (n - 1) * (c * (h * w)) + ((c - 1) * (h * w) + ((h - 1) * w + w)) == n * (c * (h * w))
  {
  }

  /** Two rows and one column of width four, in tiles of one row and two columns. */
  const Wide: Shape := Shape(1, 2, 1, 2, 4, 2, 4, 1, 1, 1, 1, 0, 0, 1, 1)

  const WideTiles: Tiling := Tiling(1, 4, 1, 2, 2)

  /**
   All four tile columns run where two are wanted; in a packed output the third begins at the place of the next row's
   first cell.
   */
  lemma WideTilesSpill()
    ensures WideTiles.Valid() && ColumnsRun(Wide, WideTiles) == 4 && Ceiling(Wide.topWidth, WideTiles.tile0) == 2
    ensures ColumnRuns(Wide, WideTiles, 2) && Side(2, WideTiles.tile0) >= Wide.topWidth
    ensures Packed(2, 2, 4).At(Cell(0, 0, 0, Side(2, WideTiles.tile0))) == Packed(2, 2, 4).At(Cell(0, 0, 1, 0))
  {
  }

  // ---- All tiles ----

  /** Where a tile sits in the nest: batch and block, row group, column group, row in group, column in group. */
  datatype Spot = Spot(g2: int, g1: int, g0: int, l1: int, l0: int)

  predicate SpotBefore(a: Spot, b: Spot) {
    a.g2 < b.g2 || (a.g2 == b.g2 && (a.g1 < b.g1 || (a.g1 == b.g1 && (a.g0 < b.g0 || (a.g0 == b.g0 &&
    (a.l1 < b.l1 || (a.l1 == b.l1 && a.l0 < b.l0)))))))
  }

  function SpotOf(p: Shape, ti: Tiling, u: Cell): Spot
    requires ti.Valid()
  {
    var row, column := u.y / ti.tile1, u.x / ti.tile0;
    Spot(u.c / ti.outTiles * p.batches + u.n, row / ti.groups1, column / ti.groups0, row % ti.groups1,
         column % ti.groups0)
  }

  /** The output cells whose tile column runs. */
  predicate Wanted(p: Shape, ti: Tiling, u: Cell)
    requires ti.Valid()
  {
    p.TopHas(u) && u.x / ti.tile0 < ColumnsRun(p, ti)
  }

  ghost predicate SpotsDone(p: Shape, ti: Tiling, done: set<Cell>, s: Spot)
    requires ti.Valid()
  {
    forall u :: u in done <==> Wanted(p, ti, u) && SpotBefore(SpotOf(p, ti, u), s)
  }

  /** Tiles divide the output, and no tile column that runs sticks out. */
  ghost predicate Tileable(p: Shape, ti: Tiling, blocks: nat, rows: nat) {
    && ti.Valid() && UnitStride(p) && p.filterWidth >= 1
    && p.outputs == blocks * ti.outTiles && p.topHeight == rows * ti.tile1
    && ColumnsRun(p, ti) * ti.tile0 <= p.topWidth
  }

  function TileAt(p: Shape, ti: Tiling, s: Spot): Tile
    requires p.batches >= 1 && 0 <= s.g2 && 0 <= s.g1 && 0 <= s.g0 && 0 <= s.l1 && 0 <= s.l0
  {
    var block := s.g2 / p.batches;
    Multiple(s.g1, ti.groups1, s.l1, ti.tile1);
    Multiple(s.g0, ti.groups0, s.l0, ti.tile0);
    Multiple(block, ti.outTiles, 0, 1);
    Tile(s.g2 - block * p.batches, block * ti.outTiles, (s.g1 * ti.groups1 + s.l1) * ti.tile1,
         (s.g0 * ti.groups0 + s.l0) * ti.tile0)
  }

  lemma Multiple(g: nat, groups: nat, l: nat, tile: nat)
    ensures g * groups >= 0 && (g * groups + l) * tile >= 0
  {
  }

  lemma Between(width: nat, q: int, v: int)
    requires width >= 1
    ensures q * width <= v < q * width + width <==> v / width == q
  {
    if q * width <= v < q * width + width { Digits(width, q, v - q * width, v / width, v % width); }
  }

  lemma InGroup(groups: nat, t: int, g: int, l: int)
    requires 0 <= l < groups
    ensures t == g * groups + l <==> t / groups == g && t % groups == l
  {
    if t == g * groups + l { Digits(groups, g, l, t / groups, t % groups); }
  }

  /** A tile holds exactly the output cells of its spot. */
  lemma TileOfSpot(p: Shape, ti: Tiling, s: Spot, u: Cell)
    requires ti.Valid() && p.batches >= 1 && p.TopHas(u)
    requires 0 <= s.g2 && 0 <= s.g1 && 0 <= s.g0 && 0 <= s.l1 < ti.groups1 && 0 <= s.l0 < ti.groups0
    ensures TileHas(ti, TileAt(p, ti, s), u) <==> SpotOf(p, ti, u) == s
  {
    var block := s.g2 / p.batches;
    Between(ti.outTiles, block, u.c);
    Between(ti.tile1, s.g1 * ti.groups1 + s.l1, u.y);
    Between(ti.tile0, s.g0 * ti.groups0 + s.l0, u.x);
    InGroup(ti.groups1, u.y / ti.tile1, s.g1, s.l1);
    InGroup(ti.groups0, u.x / ti.tile0, s.g0, s.l0);
    BatchAndBlock(p.batches, s.g2, u.c / ti.outTiles, u.n);
  }

  lemma BatchAndBlock(batches: nat, g2: int, block: int, b: int)
    requires batches >= 1 && 0 <= b < batches
    ensures block * batches + b == g2 <==> (g2 / batches == block && g2 - g2 / batches * batches == b)
  {
    if block * batches + b == g2 { Digits(batches, block, b, g2 / batches, g2 % batches); }
  }

  predicate RowsGo(p: Shape, ti: Tiling, g1: nat, l1: nat) { (g1 * ti.groups1 + l1) * ti.tile1 < p.topHeight }

  predicate ColumnsGo(p: Shape, ti: Tiling, g0: nat, l0: nat) { (g0 * ti.groups0 + l0) * ti.tile1 < p.topWidth }

  lemma Stopped(t: nat, groups: nat, g: nat, l: nat, tile: nat)
    requires groups >= 1 && t / groups == g && t % groups >= l
    ensures t * tile >= (g * groups + l) * tile
  {
    assert t >= g * groups + l;
  }

  /** No wanted cell lies in a row the guard has stopped at. */
  lemma RowsStopped(p: Shape, ti: Tiling, g1: nat, l1: nat, u: Cell)
    requires ti.Valid() && p.TopHas(u) && !RowsGo(p, ti, g1, l1)
    ensures !(SpotOf(p, ti, u).g1 == g1 && SpotOf(p, ti, u).l1 >= l1)
  {
    var row := u.y / ti.tile1;
    if row / ti.groups1 == g1 && row % ti.groups1 >= l1 { Stopped(row, ti.groups1, g1, l1, ti.tile1); }
  }

  lemma ColumnsStopped(p: Shape, ti: Tiling, g0: nat, l0: nat, u: Cell)
    requires ti.Valid() && Wanted(p, ti, u) && !ColumnsGo(p, ti, g0, l0)
    ensures !(SpotOf(p, ti, u).g0 == g0 && SpotOf(p, ti, u).l0 >= l0)
  {
    hide ColumnsRun, ColumnGroups;
    var column := u.x / ti.tile0;
    ColumnsRunIs(p, ti, column);
    if column / ti.groups0 == g0 && column % ti.groups0 >= l0 { Stopped(column, ti.groups0, g0, l0, ti.tile1); }
  }

  lemma RowSpot(p: Shape, ti: Tiling, u: Cell)
    requires ti.Valid() && p.TopHas(u)
    ensures 0 <= u.y / ti.tile1 / ti.groups1 < RowGroups(p, ti)
  {
    hide Side;
    CeilingIs(p.topHeight, Side(ti.groups1, ti.tile1), u.y / ti.tile1 / ti.groups1);
    GroupStart(u.y / ti.tile1, ti.groups1, ti.tile1, u.y);
  }

  lemma ColumnSpot(p: Shape, ti: Tiling, u: Cell)
    requires ti.Valid() && Wanted(p, ti, u)
    ensures 0 <= u.x / ti.tile0 / ti.groups0 < ColumnGroups(p, ti)
  {
    hide Side, Ceiling;
    GroupOf(u.x / ti.tile0, ti.groups0, ColumnGroups(p, ti));
  }

  /** Every wanted cell has its spot inside the nest. */
  lemma SpotsInside(p: Shape, ti: Tiling, blocks: nat, rows: nat, u: Cell)
    requires Tileable(p, ti, blocks, rows) && Wanted(p, ti, u)
    ensures var s := SpotOf(p, ti, u);
            && 0 <= s.g2 < blocks * p.batches && 0 <= s.g1 < RowGroups(p, ti) && 0 <= s.g0 < ColumnGroups(p, ti)
            && 0 <= s.l1 < ti.groups1 && 0 <= s.l0 < ti.groups0
  {
    QuotientBelow(u.c, ti.outTiles, blocks);
    Below(p.batches, blocks, u.c / ti.outTiles, u.n);
    RowSpot(p, ti, u);
    ColumnSpot(p, ti, u);
    hide Ceiling, Side, ColumnsRun, RowGroups, ColumnGroups;
  }

  lemma GroupStart(row: nat, groups: nat, tile: nat, y: nat)
    requires groups >= 1 && tile >= 1 && row == y / tile
    ensures row / groups * Side(groups, tile) <= y
  {
    assert row / groups * (groups * tile) == row / groups * groups * tile;
    assert row / groups * groups * tile <= row * tile;
  }

  lemma GroupOf(column: nat, groups: nat, count: nat)
    requires groups >= 1 && column < Side(groups, count)
    ensures column / groups < count
  {
    assert groups * count == count * groups;
    QuotientBelow(column, groups, count);
  }

  lemma ColumnFits(p: Shape, ti: Tiling, g0: nat, l0: nat)
    requires ti.Valid() && ColumnsRun(p, ti) * ti.tile0 <= p.topWidth
    requires g0 < ColumnGroups(p, ti) && l0 < ti.groups0 && ColumnsGo(p, ti, g0, l0)
    ensures g0 * ti.groups0 + l0 < ColumnsRun(p, ti)
    ensures (g0 * ti.groups0 + l0) * ti.tile0 + ti.tile0 <= p.topWidth
  {
    hide Ceiling;
    var column := g0 * ti.groups0 + l0;
    Below(ti.groups0, ColumnGroups(p, ti), g0, l0);
    assert Side(ti.groups0, ColumnGroups(p, ti)) == ColumnGroups(p, ti) * ti.groups0;
    ColumnsRunIs(p, ti, column);
    FitsUnder(column, ColumnsRun(p, ti), ti.tile0);
  }

  lemma RowFits(ti: Tiling, height: nat, rows: nat, row: nat)
    requires ti.Valid() && height == rows * ti.tile1 && row * ti.tile1 < height
    ensures row * ti.tile1 + ti.tile1 <= height
  {
    Monotone(rows, row, ti.tile1);
    FitsUnder(row, rows, ti.tile1);
  }

  /** A tile that the guards let run fits into the output. */
  lemma TileFits(p: Shape, ti: Tiling, blocks: nat, rows: nat, s: Spot)
    requires Tileable(p, ti, blocks, rows) && p.batches >= 1
    requires 0 <= s.g2 < blocks * p.batches && 0 <= s.g1 && 0 <= s.g0 < ColumnGroups(p, ti)
    requires 0 <= s.l1 < ti.groups1 && 0 <= s.l0 < ti.groups0 && RowsGo(p, ti, s.g1, s.l1)
    requires ColumnsGo(p, ti, s.g0, s.l0)
    ensures Placed(p, ti, TileAt(p, ti, s))
  {
    hide Ceiling, ColumnsRun, ColumnGroups, UnitStride;
    QuotientBelow(s.g2, p.batches, blocks);
    FitsUnder(s.g2 / p.batches, blocks, ti.outTiles);
    RowFits(ti, p.topHeight, rows, s.g1 * ti.groups1 + s.l1);
    ColumnFits(p, ti, s.g0, s.l0);
  }

  lemma FitsUnder(t: nat, count: nat, tile: nat)
    requires t < count
    ensures t * tile + tile <= count * tile
  {
    assert (t + 1) * tile <= count * tile;
  }

  lemma ColumnsDone(p: Shape, ti: Tiling, done: set<Cell>, g2: int, g1: int, g0: nat, l1: int, l0: nat)
    requires ti.Valid() && SpotsDone(p, ti, done, Spot(g2, g1, g0, l1, l0))
    requires !(l0 < ti.groups0 && ColumnsGo(p, ti, g0, l0))
    ensures SpotsDone(p, ti, done, Spot(g2, g1, g0, l1 + 1, 0))
  {
    hide Wanted, ColumnsGo;
    forall u | Wanted(p, ti, u)
      ensures SpotBefore(SpotOf(p, ti, u), Spot(g2, g1, g0, l1, l0)) <==>
                SpotBefore(SpotOf(p, ti, u), Spot(g2, g1, g0, l1 + 1, 0))
    {
      if l0 < ti.groups0 { ColumnsStopped(p, ti, g0, l0, u); }
    }
  }

  lemma RowsDone(p: Shape, ti: Tiling, done: set<Cell>, g2: int, g1: nat, g0: int, l1: nat)
    requires ti.Valid() && SpotsDone(p, ti, done, Spot(g2, g1, g0, l1, 0))
    requires !(l1 < ti.groups1 && RowsGo(p, ti, g1, l1))
    ensures SpotsDone(p, ti, done, Spot(g2, g1, g0 + 1, 0, 0))
  {
    hide RowsGo, ColumnsRun;
    forall u | Wanted(p, ti, u)
      ensures SpotBefore(SpotOf(p, ti, u), Spot(g2, g1, g0, l1, 0)) <==>
                SpotBefore(SpotOf(p, ti, u), Spot(g2, g1, g0 + 1, 0, 0))
    {
      if l1 < ti.groups1 { RowsStopped(p, ti, g1, l1, u); }
    }
  }

  lemma GroupsDone(p: Shape, ti: Tiling, blocks: nat, rows: nat, done: set<Cell>, g2: int, g1: int)
    requires Tileable(p, ti, blocks, rows) && SpotsDone(p, ti, done, Spot(g2, g1, ColumnGroups(p, ti), 0, 0))
    ensures SpotsDone(p, ti, done, Spot(g2, g1 + 1, 0, 0, 0))
  {
    hide Wanted, SpotOf, ColumnGroups, RowGroups, UnitStride, ColumnsRun;
    forall u | Wanted(p, ti, u)
      ensures SpotBefore(SpotOf(p, ti, u), Spot(g2, g1, ColumnGroups(p, ti), 0, 0))
         <==> SpotBefore(SpotOf(p, ti, u), Spot(g2, g1 + 1, 0, 0, 0))
    {
      SpotsInside(p, ti, blocks, rows, u);
    }
  }

  lemma RowGroupsDone(p: Shape, ti: Tiling, blocks: nat, rows: nat, done: set<Cell>, g2: int)
    requires Tileable(p, ti, blocks, rows) && SpotsDone(p, ti, done, Spot(g2, RowGroups(p, ti), 0, 0, 0))
    ensures SpotsDone(p, ti, done, Spot(g2 + 1, 0, 0, 0, 0))
  {
    hide Wanted, SpotOf, ColumnGroups, RowGroups, UnitStride, ColumnsRun;
    forall u | Wanted(p, ti, u)
      ensures SpotBefore(SpotOf(p, ti, u), Spot(g2, RowGroups(p, ti), 0, 0, 0))
         <==> SpotBefore(SpotOf(p, ti, u), Spot(g2 + 1, 0, 0, 0, 0))
    {
      SpotsInside(p, ti, blocks, rows, u);
    }
  }

  lemma AllDone(p: Shape, ti: Tiling, blocks: nat, rows: nat, done: set<Cell>)
    requires Tileable(p, ti, blocks, rows) && SpotsDone(p, ti, done, Spot(blocks * p.batches, 0, 0, 0, 0))
    ensures forall u :: u in done <==> Wanted(p, ti, u)
  {
    hide Wanted, SpotOf, ColumnGroups, RowGroups, UnitStride, ColumnsRun;
    forall u | Wanted(p, ti, u) ensures u in done { SpotsInside(p, ti, blocks, rows, u); }
  }

  lemma NoneDone(p: Shape, ti: Tiling, blocks: nat, rows: nat)
    requires Tileable(p, ti, blocks, rows)
    ensures SpotsDone(p, ti, {}, Spot(0, 0, 0, 0, 0))
  {
    hide Wanted, SpotOf, ColumnGroups, RowGroups, UnitStride, ColumnsRun;
    forall u | Wanted(p, ti, u)
      ensures !SpotBefore(SpotOf(p, ti, u), Spot(0, 0, 0, 0, 0)) { SpotsInside(p, ti, blocks, rows, u); }
  }

  /** The tile's cells are all wanted and are the only ones at their spot. */
  lemma SpotWritten(p: Shape, ti: Tiling, blocks: nat, rows: nat, s: Spot, done: set<Cell>, next: set<Cell>)
    requires Tileable(p, ti, blocks, rows) && p.batches >= 1
    requires 0 <= s.g2 < blocks * p.batches && 0 <= s.g1 && 0 <= s.g0 < ColumnGroups(p, ti)
    requires 0 <= s.l1 < ti.groups1 && 0 <= s.l0 < ti.groups0 && RowsGo(p, ti, s.g1, s.l1)
    requires ColumnsGo(p, ti, s.g0, s.l0)
    requires SpotsDone(p, ti, done, s) && next <= p.TopCells()
    requires forall u :: u in next <==> u in done || TileHas(ti, TileAt(p, ti, s), u)
    ensures SpotsDone(p, ti, next, s.(l0 := s.l0 + 1))
  {
    hide ColumnsRun, ColumnGroups, ColumnsGo, RowsGo, TileAt, TileHas;
    ColumnFits(p, ti, s.g0, s.l0);
    forall u ensures u in next <==> Wanted(p, ti, u) && SpotBefore(SpotOf(p, ti, u), s.(l0 := s.l0 + 1)) {
      if p.TopHas(u) {
        TileOfSpot(p, ti, s, u);
        InGroup(ti.groups0, u.x / ti.tile0, s.g0, s.l0);
      }
    }
  }

  /** What the tile loops work on. */
  ghost predicate Tools(p: Shape, ti: Tiling, blocks: nat, rows: nat, stage: array<real>, ls: Layout,
                        weiStage: array<real>, out: array<real>, top: array<real>, lt: Layout, newBot: seq<real>,
                        ln: Layout, newHeight: nat, newWidth: nat, newWei: seq<real>, x: Tensor, w: Tensor,
                        padding: real)
  {
    && Tileable(p, ti, blocks, rows) && Staged(p, ti, stage, weiStage, out, ls)
    && top != stage && top != weiStage && top != out
    && Room(p.TopCells(), lt, top.Length) && Apart(p.TopCells(), lt)
    && Sources(p, ti, newBot, ln, newHeight, newWidth, Padded(p, x, padding), newWei, w)
  }

  ghost predicate Progress(p: Shape, ti: Tiling, top: seq<real>, original: seq<real>, lt: Layout, done: set<Cell>,
                           value: Tensor, s: Spot)
    requires ti.Valid()
  {
    Filled(top, original, lt, done, value) && done <= p.TopCells() && SpotsDone(p, ti, done, s)
  }

  method RunTile(p: Shape, ti: Tiling, ghost blocks: nat, ghost rows: nat, stage: array<real>, ls: Layout,
                 weiStage: array<real>, out: array<real>, top: array<real>, lt: Layout, newBot: seq<real>, ln: Layout,
                 ghost newHeight: nat, ghost newWidth: nat, newWei: seq<real>, ghost x: Tensor, ghost w: Tensor,
                 ghost padding: real, g2: nat, g1: nat, g0: nat, l1: nat, l0: nat, ghost done: set<Cell>,
                 ghost original: seq<real>)
    returns (ghost next: set<Cell>)
    requires Tools(p, ti, blocks, rows, stage, ls, weiStage, out, top, lt, newBot, ln, newHeight, newWidth, newWei, x,
                   w, padding)
    requires p.batches >= 1 && g2 < blocks * p.batches && g0 < ColumnGroups(p, ti) && l1 < ti.groups1 && l0 < ti.groups0
    requires RowsGo(p, ti, g1, l1) && ColumnsGo(p, ti, g0, l0)
    requires Progress(p, ti, top[..], original, lt, done, p.Forward(x, w, padding), Spot(g2, g1, g0, l1, l0))
    modifies stage, weiStage, out, top
    ensures Progress(p, ti, top[..], original, lt, next, p.Forward(x, w, padding), Spot(g2, g1, g0, l1, l0 + 1))
  {
    hide ColumnsRun, ColumnGroups, ColumnsGo, RowsGo, Filled, Staged, Sources, Room, Apart, SpotsDone, Placed;
    hide UnitStride;
    hide Shape.Forward, Layout.At, Padded, OutCells, OutLayout, TileHas;
    TileFits(p, ti, blocks, rows, Spot(g2, g1, g0, l1, l0));
    var oBlock, tile := g2 / p.batches, TileAt(p, ti, Spot(g2, g1, g0, l1, l0));
    ComputeTile(p, ti, tile, out, stage, ls, weiStage, newBot, ln, newWei, newHeight, newWidth, oBlock, x, w, padding);
    next := WriteTile(p, ti, tile, out[..], top, lt, done, p.Forward(x, w, padding), original);
    SpotWritten(p, ti, blocks, rows, Spot(g2, g1, g0, l1, l0), done, next);
  }

  /** One group of tiles. */
  method RunGroup(p: Shape, ti: Tiling, ghost blocks: nat, ghost rows: nat, stage: array<real>, ls: Layout,
                  weiStage: array<real>, out: array<real>, top: array<real>, lt: Layout, newBot: seq<real>, ln: Layout,
                  ghost newHeight: nat, ghost newWidth: nat, newWei: seq<real>, ghost x: Tensor, ghost w: Tensor,
                  ghost padding: real, g2: nat, g1: nat, g0: nat, ghost done: set<Cell>, ghost original: seq<real>)
    returns (ghost next: set<Cell>)
    requires Tools(p, ti, blocks, rows, stage, ls, weiStage, out, top, lt, newBot, ln, newHeight, newWidth, newWei, x,
                   w, padding)
    requires p.batches >= 1 && g2 < blocks * p.batches && g0 < ColumnGroups(p, ti)
    requires Progress(p, ti, top[..], original, lt, done, p.Forward(x, w, padding), Spot(g2, g1, g0, 0, 0))
    modifies stage, weiStage, out, top
    ensures Progress(p, ti, top[..], original, lt, next, p.Forward(x, w, padding), Spot(g2, g1, g0 + 1, 0, 0))
  {
    hide ColumnsRun, ColumnGroups, ColumnsGo, RowsGo, Filled, Staged, Sources, Room, Apart, SpotsDone, UnitStride;
    hide Shape.Forward, Padded;
    next := done;
    var l1 := 0;
    while l1 < ti.groups1 && RowsGo(p, ti, g1, l1)
      invariant 0 <= l1 <= ti.groups1
      invariant Progress(p, ti, top[..], original, lt, next, p.Forward(x, w, padding), Spot(g2, g1, g0, l1, 0))
    {
      var l0 := 0;
      while l0 < ti.groups0 && ColumnsGo(p, ti, g0, l0)
        invariant 0 <= l0 <= ti.groups0
        invariant Progress(p, ti, top[..], original, lt, next, p.Forward(x, w, padding), Spot(g2, g1, g0, l1, l0))
      {
        next := RunTile(p, ti, blocks, rows, stage, ls, weiStage, out, top, lt, newBot, ln, newHeight, newWidth, newWei,
                        x, w, padding, g2, g1, g0, l1, l0, next, original);
        l0 := l0 + 1;
      }
      ColumnsDone(p, ti, next, g2, g1, g0, l1, l0);
      l1 := l1 + 1;
    }
    RowsDone(p, ti, next, g2, g1, g0, l1);
  }

  /** All groups of all images and output blocks. */
  method RunGroups(p: Shape, ti: Tiling, blocks: nat, ghost rows: nat, stage: array<real>, ls: Layout,
                   weiStage: array<real>, out: array<real>, top: array<real>, lt: Layout, newBot: seq<real>, ln: Layout,
                   ghost newHeight: nat, ghost newWidth: nat, newWei: seq<real>, ghost x: Tensor, ghost w: Tensor,
                   ghost padding: real)
    returns (ghost done: set<Cell>)
    requires Tools(p, ti, blocks, rows, stage, ls, weiStage, out, top, lt, newBot, ln, newHeight, newWidth, newWei, x,
                   w, padding)
    modifies stage, weiStage, out, top
    ensures Filled(top[..], old(top[..]), lt, done, p.Forward(x, w, padding)) && done <= p.TopCells()
    ensures forall u :: u in done <==> Wanted(p, ti, u)
  {
    hide ColumnsRun, ColumnGroups, RowGroups, Filled, Staged, Sources, Room, Apart, SpotsDone, UnitStride;
    hide Shape.Forward, Padded, Wanted;
    done := {};
    FillStart(top[..], lt, p.Forward(x, w, padding));
    NoneDone(p, ti, blocks, rows);
    for g2 := 0 to blocks * p.batches
      invariant Progress(p, ti, top[..], old(top[..]), lt, done, p.Forward(x, w, padding), Spot(g2, 0, 0, 0, 0))
    {
      assert p.batches >= 1;
      for g1 := 0 to RowGroups(p, ti)
        invariant Progress(p, ti, top[..], old(top[..]), lt, done, p.Forward(x, w, padding), Spot(g2, g1, 0, 0, 0))
      {
        for g0 := 0 to ColumnGroups(p, ti)
          invariant Progress(p, ti, top[..], old(top[..]), lt, done, p.Forward(x, w, padding), Spot(g2, g1, g0, 0, 0))
        {
          done := RunGroup(p, ti, blocks, rows, stage, ls, weiStage, out, top, lt, newBot, ln, newHeight, newWidth,
                           newWei, x, w, padding, g2, g1, g0, done, old(top[..]));
        }
        GroupsDone(p, ti, blocks, rows, done, g2, g1);
      }
      RowGroupsDone(p, ti, blocks, rows, done, g2);
    }
    AllDone(p, ti, blocks, rows, done);
  }

  function WantedCells(p: Shape, ti: Tiling): (s: set<Cell>)
    requires ti.Valid()
    ensures forall u :: u in s <==> Wanted(p, ti, u)
  {
    set u | u in p.TopCells() && Wanted(p, ti, u)
  }

  /** Allocates the stages and runs the tiles over an input that is already padded. */
  method ConvTiles(p: Shape, ti: Tiling, ghost blocks: nat, ghost rows: nat, top: array<real>, lt: Layout,
                   newBot: seq<real>, ln: Layout, ghost newHeight: nat, ghost newWidth: nat, newWei: seq<real>,
                   ghost x: Tensor, ghost w: Tensor, ghost padding: real)
    requires Tileable(p, ti, blocks, rows) && Room(p.TopCells(), lt, top.Length) && Apart(p.TopCells(), lt)
    requires Sources(p, ti, newBot, ln, newHeight, newWidth, Padded(p, x, padding), newWei, w)
    modifies top
    ensures Filled(top[..], old(top[..]), lt, WantedCells(p, ti), p.Forward(x, w, padding))
  {
    hide ColumnsRun, Filled, Sources, UnitStride, Shape.Forward, Padded, Wanted, Room, Apart;
    var width := StageWidth(p, ti);
    var stage := new real[ti.tile1 * width];
    var weiStage := new real[p.filterWidth];
    var out := new real[ti.outTiles * (ti.tile1 * ti.tile0)];
    var ls := Packed(1, ti.tile1, width);
    PackedIsSound(1, 1, ti.tile1, width);
    PackedIsSound(1, ti.outTiles, ti.tile1, ti.tile0);
    var oLoops := Ceiling(p.outputs, ti.outTiles);
    DivisionIs(ti.outTiles, blocks, ti.outTiles - 1);
    ghost var done := RunGroups(p, ti, oLoops, rows, stage, ls, weiStage, out, top, lt, newBot, ln, newHeight, newWidth,
                                newWei, x, w, padding);
    assert done == WantedCells(p, ti);
  }

  lemma FullBlocks(tile: nat, blocks: nat)
    requires tile >= 1
    ensures (blocks * tile) % tile == 0
  {
    DivisionIs(tile, blocks, 0);
  }

  /** Prepares and runs; with `doInputCopy` off, the padded copy must be there already. */
  method ConvForwardTiled(p: Shape, ti: Tiling, ghost blocks: nat, ghost rows: nat, doInputCopy: bool, padding: real,
                          x: seq<real>, lx: Layout, newBot: array<real>, ln: Layout, newHeight: nat, newWidth: nat,
                          w: seq<real>, lw: Layout, newWei: array<real>, top: array<real>, lt: Layout)
    requires Tileable(p, ti, blocks, rows) && Room(p.TopCells(), lt, top.Length) && Apart(p.TopCells(), lt)
    requires Room(p.BotCells(), lx, |x|) && Room(p.WeiCells(), lw, |w|) && newWei.Length >= WeightCount(p)
    requires Room(Grid(p.batches, p.inputs, newHeight, newWidth), ln, newBot.Length)
    requires Apart(Grid(p.batches, p.inputs, newHeight, newWidth), ln)
    requires newHeight + 1 >= p.topHeight + p.filterHeight && newWidth + 1 >= p.topWidth + p.filterWidth
    requires !doInputCopy ==>
               Backed(newBot[..], ln, Grid(p.batches, p.inputs, newHeight, newWidth), Padded(p, View(x, lx), padding))
    requires newBot != newWei && newBot != top && newWei != top
    modifies newBot, newWei, top
    ensures Filled(top[..], old(top[..]), lt, WantedCells(p, ti), p.Forward(View(x, lx), View(w, lw), padding))
  {
    hide ColumnsRun, UnitStride, Shape.Forward, Padded, Wanted, Apart, WeightCount, PlaceOf, View, Layout.At;
    if doInputCopy {
      Prepad(p, padding, x, lx, newBot, ln, newHeight, newWidth);
    }
    assert Backed(newBot[..], ln, Grid(p.batches, p.inputs, newHeight, newWidth), Padded(p, View(x, lx), padding));
    FullBlocks(ti.outTiles, blocks);
    InterleaveWeights(p, ti.outTiles, w, lw, newWei);
    ConvTiles(p, ti, blocks, rows, top, lt, newBot[..], ln, newHeight, newWidth, newWei[..], View(x, lx), View(w, lw),
              padding);
  }

  /**
   The tile columns that run make up the width exactly if and only if they cover every output cell and none sticks
   out.
   */
  lemma ColumnsAreExact(p: Shape, ti: Tiling)
    requires ti.Valid() && p.batches >= 1 && p.outputs >= 1 && p.topHeight >= 1
    ensures WantedCells(p, ti) == p.TopCells()
            && (forall t: nat :: ColumnRuns(p, ti, t) ==> Side(t, ti.tile0) + ti.tile0 <= p.topWidth)
       <==> ColumnsRun(p, ti) * ti.tile0 == p.topWidth
  {
    hide ColumnsRun, ColumnRuns;
    CoveredWhole(p, ti);
    ColumnsInside(p, ti);
  }

  /** Every output cell is covered if and only if the tile columns that run add up to the width. */
  lemma CoveredWhole(p: Shape, ti: Tiling)
    requires ti.Valid() && p.batches >= 1 && p.outputs >= 1 && p.topHeight >= 1
    ensures WantedCells(p, ti) == p.TopCells() <==> ColumnsRun(p, ti) * ti.tile0 >= p.topWidth
  {
    hide ColumnsRun;
    if ColumnsRun(p, ti) * ti.tile0 >= p.topWidth {
      CoveredCells(p, ti);
    } else {
      var u := Cell(0, 0, 0, p.topWidth - 1);
      if u.x / ti.tile0 < ColumnsRun(p, ti) { FitsUnder(u.x / ti.tile0, ColumnsRun(p, ti), ti.tile0); }
      assert u in p.TopCells() && u !in WantedCells(p, ti);
    }
  }

  lemma CoveredCells(p: Shape, ti: Tiling)
    requires ti.Valid() && ColumnsRun(p, ti) * ti.tile0 >= p.topWidth
    ensures WantedCells(p, ti) == p.TopCells()
  {
    hide ColumnsRun;
    forall u | p.TopHas(u) ensures Wanted(p, ti, u) { QuotientBelow(u.x, ti.tile0, ColumnsRun(p, ti)); }
  }

  /** Started on the same memory, the direct and the tiled loops leave the same memory. */
  lemma TiledIsDirect(p: Shape, ti: Tiling, x: Tensor, w: Tensor, padding: real, lt: Layout, before: seq<real>,
                      direct: seq<real>, tiled: seq<real>)
    requires ti.Valid() && ColumnsRun(p, ti) * ti.tile0 >= p.topWidth
    requires Filled(direct, before, lt, p.TopCells(), Biased(p, x, w, padding, []))
    requires Filled(tiled, before, lt, WantedCells(p, ti), p.Forward(x, w, padding))
    ensures direct == tiled
  {
    hide ColumnsRun, Layout.At;
    CoveredCells(p, ti);
    forall q | 0 <= q < |before| ensures direct[q] == tiled[q] {
      if !Misses(p.TopCells(), lt, q) {
        var u :| u in p.TopCells() && lt.At(u) == q;
        assert Biased(p, x, w, padding, [])(u) == p.Forward(x, w, padding)(u);
      }
    }
  }
}
