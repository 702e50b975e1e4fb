/** One tile of the tiled forward path: a stage of input rows that slides down the padded input. */
module ConvTile {
  import opened Sums
  import opened ConvSpec
  import opened Tensors
  import opened ConvDirect
  import opened ConvPrepare

  datatype Tiling = Tiling(groups1: nat, groups0: nat, tile1: nat, tile0: nat, outTiles: nat) {
    predicate Valid() { groups1 >= 1 && groups0 >= 1 && tile1 >= 1 && tile0 >= 1 && outTiles >= 1 }
  }

  /** Batch, first output channel, first row and first column of a tile. */
  datatype Tile = Tile(b: nat, o: nat, row: nat, col: nat)

  /** Memory that holds a tensor on a set of cells. */
  ghost predicate Backed(data: seq<real>, l: Layout, cells: set<Cell>, x: Tensor) {
    forall u :: u in cells ==> 0 <= l.At(u) < |data| && data[l.At(u)] == x(u)
  }

  // ---- The stage ----

  function StageCells(rows: nat, width: nat): set<Cell> { Grid(1, 1, rows, width) }

  /** The first `n` rows of the stage are rows `y`, `y + 1`, … of channel `c`, from column `x0` on. */
  ghost predicate StageHolds(stage: seq<real>, ls: Layout, width: nat, n: nat, x: Tensor, b: int, c: int, y: int,
                             x0: int) {
    forall m, r :: 0 <= m < n && 0 <= r < width ==>
      0 <= ls.At(Cell(0, 0, m, r)) < |stage| && stage[ls.At(Cell(0, 0, m, r))] == x(Cell(b, c, y + m, x0 + r))
  }

  /** Reads one row of the padded input into row `m` of the stage. */
  method LoadRow(stage: array<real>, ls: Layout, rows: nat, width: nat, m: nat, newBot: seq<real>, ln: Layout, b: nat,
                 c: nat, y: nat, x0: nat, ghost cells: set<Cell>, ghost x: Tensor)
    requires m < rows && Room(StageCells(rows, width), ls, stage.Length) && Apart(StageCells(rows, width), ls)
    requires Backed(newBot, ln, cells, x)
    requires forall u: Cell :: u.n == b && u.c == c && u.y == y && x0 <= u.x < x0 + width ==> u in cells
    requires StageHolds(stage[..], ls, width, m, x, b, c, y - m, x0)
    modifies stage
    ensures StageHolds(stage[..], ls, width, m + 1, x, b, c, y - m, x0)
  {
    hide Layout.At;
    for i := 0 to width
      invariant StageHolds(stage[..], ls, width, m, x, b, c, y - m, x0)
      invariant forall r :: 0 <= r < i ==>
                  0 <= ls.At(Cell(0, 0, m, r)) < stage.Length
                    && stage[ls.At(Cell(0, 0, m, r))] == x(Cell(b, c, y, x0 + r))
    {
      assert Cell(0, 0, m, i) in StageCells(rows, width) && Cell(b, c, y, x0 + i) in cells;
      stage[ls.At(Cell(0, 0, m, i))] := newBot[ln.At(Cell(b, c, y, x0 + i))];
      RowsKeptApart(ls, rows, width);
    }
  }

  lemma RowsKeptApart(ls: Layout, rows: nat, width: nat)
    requires Apart(StageCells(rows, width), ls)
    ensures forall m, r, m', r' ::
              0 <= m < rows && 0 <= r < width && 0 <= m' < rows && 0 <= r' < width
              && ls.At(Cell(0, 0, m, r)) == ls.At(Cell(0, 0, m', r'))
              ==> m == m' && r == r'
  {
    hide Layout.At;
    forall m, r, m', r' | 0 <= m < rows && 0 <= r < width && 0 <= m' < rows && 0 <= r' < width
                          && ls.At(Cell(0, 0, m, r)) == ls.At(Cell(0, 0, m', r'))
      ensures m == m' && r == r'
    {
      assert Cell(0, 0, m, r) in StageCells(rows, width) && Cell(0, 0, m', r') in StageCells(rows, width);
    }
  }

  method CopyRowUp(stage: array<real>, ls: Layout, rows: nat, width: nat, up: nat)
    requires up + 1 < rows && Room(StageCells(rows, width), ls, stage.Length) && Apart(StageCells(rows, width), ls)
    modifies stage
    ensures forall m, r :: 0 <= m < rows && 0 <= r < width ==>
              0 <= ls.At(Cell(0, 0, m, r)) < stage.Length
              && stage[ls.At(Cell(0, 0, m, r))] == old(stage[ls.At(Cell(0, 0, if m == up then up + 1 else m, r))])
  {
    hide Layout.At;
    RowsKeptApart(ls, rows, width);
    for r := 0 to width
      invariant forall m, q :: 0 <= m < rows && 0 <= q < width ==>
                  0 <= ls.At(Cell(0, 0, m, q)) < stage.Length
                  && stage[ls.At(Cell(0, 0, m, q))]
                     == old(stage[ls.At(Cell(0, 0, if m == up && q < r then up + 1 else m, q))])
    {
      stage[ls.At(Cell(0, 0, up, r))] := stage[ls.At(Cell(0, 0, up + 1, r))];
    }
  }

  /** Moves every row up by one; the last row stays where it was too. */
  method MoveUp(stage: array<real>, ls: Layout, rows: nat, width: nat, ghost x: Tensor, ghost b: int, ghost c: int,
                ghost y: int, ghost x0: int)
    requires rows >= 1 && Room(StageCells(rows, width), ls, stage.Length) && Apart(StageCells(rows, width), ls)
    requires StageHolds(stage[..], ls, width, rows, x, b, c, y, x0)
    modifies stage
    ensures StageHolds(stage[..], ls, width, rows - 1, x, b, c, y + 1, x0)
  {
    hide Layout.At, Apart, StageCells;
    for up := 0 to rows - 1
      invariant StageHolds(stage[..], ls, width, up, x, b, c, y + 1, x0)
      invariant forall m, r :: up <= m < rows && 0 <= r < width ==>
                  stage[ls.At(Cell(0, 0, m, r))] == x(Cell(b, c, y + m, x0 + r))
    {
      CopyRowUp(stage, ls, rows, width, up);
    }
  }

  // ---- Accumulation ----

  function TileTerm(p: Shape, x: Tensor, w: Tensor): Tap -> real {
    (t: Tap) => x(Cell(t.b, t.c, t.j + t.kj, t.i + t.ki)) * w(p.WeiOf(t))
  }

  function OutKey(tile: Tile): Tap -> Cell {
    (t: Tap) => Cell(0, t.o - tile.o, t.j - tile.row, t.i - tile.col)
  }

  function OutCells(ti: Tiling): set<Cell> { Grid(1, ti.outTiles, ti.tile1, ti.tile0) }

  function OutLayout(ti: Tiling): Layout { Packed(ti.outTiles, ti.tile1, ti.tile0) }

  predicate InTile(p: Shape, ti: Tiling, tile: Tile, t: Tap) {
    && p.Has(t) && t.b == tile.b && tile.o <= t.o < tile.o + ti.outTiles
    && tile.row <= t.j < tile.row + ti.tile1 && tile.col <= t.i < tile.col + ti.tile0
  }

  /** The taps of the tile before `(c, kj, o, ki, m, l)`, the last four counted from the tile's corner. */
  ghost predicate TileDone(p: Shape, ti: Tiling, tile: Tile, done: set<Tap>, c: int, kj: int, o: int, ki: int, m: int,
                           l: int) {
    forall t :: t in done <==> InTile(p, ti, tile, t) && TileBefore(tile, t, c, kj, o, ki, m, l)
  }

  predicate TileBefore(tile: Tile, t: Tap, c: int, kj: int, o: int, ki: int, m: int, l: int) {
    t.c < c || (t.c == c && (t.kj < kj || (t.kj == kj && (t.o - tile.o < o || (t.o - tile.o == o &&
    (t.ki < ki || (t.ki == ki && (t.j - tile.row < m || (t.j - tile.row == m && t.i - tile.col < l)))))))))
  }

  predicate Placed(p: Shape, ti: Tiling, tile: Tile) {
    && ti.Valid() && p.filterWidth >= 1 && tile.b < p.batches && tile.o + ti.outTiles <= p.outputs
    && tile.row + ti.tile1 <= p.topHeight && tile.col + ti.tile0 <= p.topWidth
  }

  function StageWidth(p: Shape, ti: Tiling): nat
    requires p.filterWidth >= 1
  {
    ti.tile0 + p.filterWidth - 1
  }

  /** One filter row of one output over the whole tile. */
  method ConvolveRow(p: Shape, ti: Tiling, tile: Tile, out: array<real>, stage: seq<real>, ls: Layout,
                     weiStage: seq<real>, c: nat, kj: nat, o: nat, ghost x: Tensor, ghost w: Tensor,
                     ghost done: set<Tap>, ghost zeros: seq<real>)
    returns (ghost next: set<Tap>)
    requires Placed(p, ti, tile) && c < p.inputs && kj < p.filterHeight && o < ti.outTiles
    requires StageHolds(stage, ls, StageWidth(p, ti), ti.tile1, x, tile.b, c, tile.row + kj, tile.col)
    requires |weiStage| == p.filterWidth
    requires forall ki :: 0 <= ki < p.filterWidth ==> weiStage[ki] == w(Cell(tile.o + o, c, kj, ki))
    requires Apart(OutCells(ti), OutLayout(ti)) && TileDone(p, ti, tile, done, c, kj, o, 0, 0, 0)
    requires Scattered(out[..], zeros, OutLayout(ti), OutCells(ti), done, OutKey(tile), TileTerm(p, x, w))
    modifies out
    ensures TileDone(p, ti, tile, next, c, kj, o + 1, 0, 0, 0)
    ensures Scattered(out[..], zeros, OutLayout(ti), OutCells(ti), next, OutKey(tile), TileTerm(p, x, w))
  {
    hide Layout.At, Apart, Packed, Scattered, TileTerm, OutKey, OutCells;
    next := done;
    for ki := 0 to p.filterWidth
      invariant TileDone(p, ti, tile, next, c, kj, o, ki, 0, 0)
      invariant Scattered(out[..], zeros, OutLayout(ti), OutCells(ti), next, OutKey(tile), TileTerm(p, x, w))
    {
      for m := 0 to ti.tile1
        invariant TileDone(p, ti, tile, next, c, kj, o, ki, m, 0)
        invariant Scattered(out[..], zeros, OutLayout(ti), OutCells(ti), next, OutKey(tile), TileTerm(p, x, w))
      {
        for l := 0 to ti.tile0
          invariant TileDone(p, ti, tile, next, c, kj, o, ki, m, l)
          invariant Scattered(out[..], zeros, OutLayout(ti), OutCells(ti), next, OutKey(tile), TileTerm(p, x, w))
        {
          ghost var t := Tap(tile.b, tile.o + o, c, tile.row + m, tile.col + l, kj, ki);
          var term := stage[ls.At(Cell(0, 0, m, ki + l))] * weiStage[ki];
          StageTerm(p, ti, tile, x, w, t, stage[ls.At(Cell(0, 0, m, ki + l))], weiStage[ki]);
          ScatterAdd(out, OutLayout(ti), Cell(0, o, m, l), term, t, next, zeros, OutCells(ti), OutKey(tile),
                     TileTerm(p, x, w));
          next := next + {t};
        }
      }
    }
  }

  lemma StageTerm(p: Shape, ti: Tiling, tile: Tile, x: Tensor, w: Tensor, t: Tap, value: real, weight: real)
    requires InTile(p, ti, tile, t)
    requires value == x(Cell(t.b, t.c, t.j + t.kj, t.i + t.ki)) && weight == w(Cell(t.o, t.c, t.kj, t.ki))
    ensures TileTerm(p, x, w)(t) == value * weight
    ensures OutKey(tile)(t) == Cell(0, t.o - tile.o, t.j - tile.row, t.i - tile.col) && OutKey(tile)(t) in OutCells(ti)
  {
    assert TileTerm(p, x, w)(t) == x(Cell(t.b, t.c, t.j + t.kj, t.i + t.ki)) * w(p.WeiOf(t));
  }

  // ---- Weights in sequence ----

  ghost predicate WeightsLaid(p: Shape, tile: nat, w: Tensor, newWei: seq<real>)
    requires tile >= 1
  {
    forall u :: p.WeiHas(u) ==> 0 <= PlaceOf(p, tile, u) < |newWei| && newWei[PlaceOf(p, tile, u)] == w(u)
  }

  lemma NextFilterRow(p: Shape, tile: nat, c: int, oBlock: int, o: int, kj: int)
    ensures Interleaved(p, tile, c, oBlock, o + 1, kj, 0) == Interleaved(p, tile, c, oBlock, o, kj, 0) + p.filterWidth
    ensures Interleaved(p, tile, c, oBlock, tile, kj, 0) == Interleaved(p, tile, c, oBlock, 0, kj + 1, 0)
  {
    assert tile * (kj + 1) == tile * kj + tile;
    assert (tile * kj + tile) * p.filterWidth == tile * kj * p.filterWidth + tile * p.filterWidth;
    assert (o + 1) * p.filterWidth == o * p.filterWidth + p.filterWidth;
  }

  lemma FilterPlace(p: Shape, tile: nat, c: int, oBlock: int, o: int, kj: int, ki: int)
    requires 0 <= o < tile
    ensures PlaceOf(p, tile, Cell(oBlock * tile + o, c, kj, ki)) == Interleaved(p, tile, c, oBlock, o, kj, 0) + ki
  {
    DivisionIs(tile, oBlock, o);
  }

  /** Reads one filter row, moving along the weights. */
  method ReadFilterRow(p: Shape, ti: Tiling, tile: Tile, weiStage: array<real>, newWei: seq<real>, weiOff: int,
                       ghost c: nat, ghost oBlock: nat, ghost o: nat, ghost kj: nat, ghost w: Tensor)
    returns (next: int)
    requires Placed(p, ti, tile) && tile.o == oBlock * ti.outTiles && o < ti.outTiles && c < p.inputs
    requires kj < p.filterHeight
    requires weiStage.Length == p.filterWidth && WeightsLaid(p, ti.outTiles, w, newWei)
    requires weiOff == Interleaved(p, ti.outTiles, c, oBlock, o, kj, 0)
    modifies weiStage
    ensures next == weiOff + p.filterWidth
    ensures forall ki :: 0 <= ki < p.filterWidth ==> weiStage[ki] == w(Cell(tile.o + o, c, kj, ki))
  {
    hide Interleaved, PlaceOf;
    next := weiOff;
    for wi := 0 to p.filterWidth
      invariant next == weiOff + wi
      invariant forall ki :: 0 <= ki < wi ==> weiStage[ki] == w(Cell(tile.o + o, c, kj, ki))
    {
      FilterPlace(p, ti.outTiles, c, oBlock, o, kj, wi);
      assert p.WeiHas(Cell(tile.o + o, c, kj, wi));
      weiStage[wi] := newWei[next];
      next := next + 1;
    }
  }

  // ---- The kernel ----

  /** Everything the kernel reads: the padded input and the interleaved weights. */
  ghost predicate Sources(p: Shape, ti: Tiling, newBot: seq<real>, ln: Layout, newHeight: nat, newWidth: nat, x: Tensor,
                          newWei: seq<real>, w: Tensor)
  {
    && ti.outTiles >= 1
    && Backed(newBot, ln, Grid(p.batches, p.inputs, newHeight, newWidth), x)
    && WeightsLaid(p, ti.outTiles, w, newWei)
    && newHeight + 1 >= p.topHeight + p.filterHeight && newWidth + 1 >= p.topWidth + p.filterWidth
  }

  ghost predicate Staged(p: Shape, ti: Tiling, stage: array<real>, weiStage: array<real>, out: array<real>, ls: Layout)
    requires p.filterWidth >= 1
  {
    && stage != weiStage && stage != out && weiStage != out
    && weiStage.Length == p.filterWidth
    && Room(StageCells(ti.tile1, StageWidth(p, ti)), ls, stage.Length)
       && Apart(StageCells(ti.tile1, StageWidth(p, ti)), ls)
    && Room(OutCells(ti), OutLayout(ti), out.Length) && Apart(OutCells(ti), OutLayout(ti))
  }

  /** All outputs of the block for one filter row, weights read in sequence. */
  method AllOutputs(p: Shape, ti: Tiling, tile: Tile, out: array<real>, stage: array<real>, ls: Layout,
                    weiStage: array<real>, newWei: seq<real>, weiOff: int, c: nat, kj: nat, ghost oBlock: nat,
                    ghost x: Tensor, ghost w: Tensor, ghost done: set<Tap>, ghost zeros: seq<real>)
    returns (weiOff': int, ghost next: set<Tap>)
    requires Placed(p, ti, tile) && c < p.inputs && kj < p.filterHeight && tile.o == oBlock * ti.outTiles
    requires Staged(p, ti, stage, weiStage, out, ls) && WeightsLaid(p, ti.outTiles, w, newWei)
    requires StageHolds(stage[..], ls, StageWidth(p, ti), ti.tile1, x, tile.b, c, tile.row + kj, tile.col)
    requires weiOff == Interleaved(p, ti.outTiles, c, oBlock, 0, kj, 0)
    requires TileDone(p, ti, tile, done, c, kj, 0, 0, 0, 0)
    requires Scattered(out[..], zeros, OutLayout(ti), OutCells(ti), done, OutKey(tile), TileTerm(p, x, w))
    modifies out, weiStage
    ensures weiOff' == Interleaved(p, ti.outTiles, c, oBlock, 0, kj + 1, 0)
    ensures TileDone(p, ti, tile, next, c, kj + 1, 0, 0, 0, 0)
    ensures Scattered(out[..], zeros, OutLayout(ti), OutCells(ti), next, OutKey(tile), TileTerm(p, x, w))
  {
    hide Layout.At, Room, Apart, Packed, Scattered, TileTerm, OutKey, OutCells, Interleaved, StageHolds, WeightsLaid;
    next, weiOff' := done, weiOff;
    for o := 0 to ti.outTiles
      invariant weiOff' == Interleaved(p, ti.outTiles, c, oBlock, o, kj, 0)
      invariant TileDone(p, ti, tile, next, c, kj, o, 0, 0, 0)
      invariant Scattered(out[..], zeros, OutLayout(ti), OutCells(ti), next, OutKey(tile), TileTerm(p, x, w))
    {
      NextFilterRow(p, ti.outTiles, c, oBlock, o, kj);
      weiOff' := ReadFilterRow(p, ti, tile, weiStage, newWei, weiOff', c, oBlock, o, kj, w);
      next := ConvolveRow(p, ti, tile, out, stage[..], ls, weiStage[..], c, kj, o, x, w, next, zeros);
    }
    NextFilterRow(p, ti.outTiles, c, oBlock, ti.outTiles, kj);
  }

  /** Reads all rows of the stage but the last. */
  method LoadFirstRows(ti: Tiling, tile: Tile, stage: array<real>, ls: Layout, width: nat, newBot: seq<real>,
                       ln: Layout, c: nat, ghost cells: set<Cell>, ghost x: Tensor)
    requires ti.Valid() && Room(StageCells(ti.tile1, width), ls, stage.Length) && Apart(StageCells(ti.tile1, width), ls)
    requires Backed(newBot, ln, cells, x)
    requires forall u: Cell ::
               u.n == tile.b && u.c == c && tile.row <= u.y < tile.row + ti.tile1 - 1
               && tile.col <= u.x < tile.col + width ==>
                 u in cells
    modifies stage
    ensures StageHolds(stage[..], ls, width, ti.tile1 - 1, x, tile.b, c, tile.row, tile.col)
  {
    hide Layout.At, Room, Apart, Backed;
    for j := 0 to ti.tile1 - 1
      invariant StageHolds(stage[..], ls, width, j, x, tile.b, c, tile.row, tile.col)
    {
      LoadRow(stage, ls, ti.tile1, width, j, newBot, ln, tile.b, c, tile.row + j, tile.col, cells, x);
    }
  }

  /** One input channel: fill the stage but for its last row, then slide it down the filter. */
  method TileChannel(p: Shape, ti: Tiling, tile: Tile, out: array<real>, stage: array<real>, ls: Layout,
                     weiStage: array<real>, newBot: seq<real>, ln: Layout, newWei: seq<real>, weiOff: int, c: nat,
                     ghost newHeight: nat, ghost newWidth: nat, ghost oBlock: nat, ghost x: Tensor, ghost w: Tensor,
                     ghost done: set<Tap>, ghost zeros: seq<real>)
    returns (ghost next: set<Tap>)
    requires Placed(p, ti, tile) && c < p.inputs && tile.o == oBlock * ti.outTiles
    requires Staged(p, ti, stage, weiStage, out, ls) && Sources(p, ti, newBot, ln, newHeight, newWidth, x, newWei, w)
    requires weiOff == Interleaved(p, ti.outTiles, c, oBlock, 0, 0, 0)
    requires TileDone(p, ti, tile, done, c, 0, 0, 0, 0, 0)
    requires Scattered(out[..], zeros, OutLayout(ti), OutCells(ti), done, OutKey(tile), TileTerm(p, x, w))
    modifies out, stage, weiStage
    ensures TileDone(p, ti, tile, next, c + 1, 0, 0, 0, 0, 0)
    ensures Scattered(out[..], zeros, OutLayout(ti), OutCells(ti), next, OutKey(tile), TileTerm(p, x, w))
  {
    hide Layout.At, Room, Apart, Packed, Scattered, TileTerm, OutKey, OutCells, Interleaved, WeightsLaid, Backed;
    hide StageHolds;
    var width := StageWidth(p, ti);
    ghost var cells := Grid(p.batches, p.inputs, newHeight, newWidth);
    LoadFirstRows(ti, tile, stage, ls, width, newBot, ln, c, cells, x);
    next := done;
    var off := weiOff;
    for kj := 0 to p.filterHeight
      invariant StageHolds(stage[..], ls, width, ti.tile1 - 1, x, tile.b, c, tile.row + kj, tile.col)
      invariant off == Interleaved(p, ti.outTiles, c, oBlock, 0, kj, 0)
      invariant TileDone(p, ti, tile, next, c, kj, 0, 0, 0, 0)
      invariant Scattered(out[..], zeros, OutLayout(ti), OutCells(ti), next, OutKey(tile), TileTerm(p, x, w))
    {
      LoadRow(stage, ls, ti.tile1, width, ti.tile1 - 1, newBot, ln, tile.b, c, tile.row + kj + (ti.tile1 - 1), tile.col,
              cells, x);
      off, next := AllOutputs(p, ti, tile, out, stage, ls, weiStage, newWei, off, c, kj, oBlock, x, w, next, zeros);
      MoveUp(stage, ls, ti.tile1, width, x, tile.b, c, tile.row + kj, tile.col);
    }
  }

  method ClearTiles(out: array<real>)
    modifies out
    ensures forall q :: 0 <= q < out.Length ==> out[q] == 0.0
  {
    for ii := 0 to out.Length
      invariant forall q :: 0 <= q < ii ==> out[q] == 0.0
    {
      out[ii] := 0.0;
    }
  }

  lemma NextChannel(p: Shape, tile: nat, c: int, oBlock: int)
    ensures Interleaved(p, tile, c + 1, oBlock, 0, 0, 0)
         == Interleaved(p, tile, c, oBlock, 0, 0, 0) + p.filterHeight * p.filterWidth * p.outputs
  {
    assert (c + 1) * p.outputs * p.filterWidth * p.filterHeight
        == c * p.outputs * p.filterWidth * p.filterHeight + p.outputs * p.filterWidth * p.filterHeight;
    assert p.outputs * p.filterWidth * p.filterHeight == p.filterHeight * p.filterWidth * p.outputs;
  }

  lemma FirstWeight(p: Shape, tile: nat, oBlock: int)
    ensures Interleaved(p, tile, 0, oBlock, 0, 0, 0) == oBlock * tile * p.filterHeight * p.filterWidth
  {
    assert oBlock * tile * p.filterHeight * p.filterWidth == oBlock * tile * p.filterWidth * p.filterHeight;
  }

  /** All channels: every cell of the tile ends up with the sum over its own taps. */
  method TileChannels(p: Shape, ti: Tiling, tile: Tile, out: array<real>, stage: array<real>, ls: Layout,
                      weiStage: array<real>, newBot: seq<real>, ln: Layout, newWei: seq<real>, ghost newHeight: nat,
                      ghost newWidth: nat, oBlock: nat, ghost x: Tensor, ghost w: Tensor)
    returns (ghost done: set<Tap>, ghost zeros: seq<real>)
    requires Placed(p, ti, tile) && tile.o == oBlock * ti.outTiles
    requires Staged(p, ti, stage, weiStage, out, ls) && Sources(p, ti, newBot, ln, newHeight, newWidth, x, newWei, w)
    modifies out, stage, weiStage
    ensures forall t :: t in done <==> InTile(p, ti, tile, t)
    ensures |zeros| == out.Length && forall q :: 0 <= q < |zeros| ==> zeros[q] == 0.0
    ensures Scattered(out[..], zeros, OutLayout(ti), OutCells(ti), done, OutKey(tile), TileTerm(p, x, w))
  {
    hide Layout.At, Apart, Packed, Scattered, TileTerm, OutKey, OutCells, Interleaved, WeightsLaid, Backed, Sources;
    ClearTiles(out);
    zeros, done := out[..], {};
    ScatterStart(zeros, OutLayout(ti), OutCells(ti), OutKey(tile), TileTerm(p, x, w));
    FirstWeight(p, ti.outTiles, oBlock);
    var weiOff := tile.o * p.filterHeight * p.filterWidth;
    for c := 0 to p.inputs
      invariant weiOff == Interleaved(p, ti.outTiles, c, oBlock, 0, 0, 0)
      invariant TileDone(p, ti, tile, done, c, 0, 0, 0, 0, 0)
      invariant Scattered(out[..], zeros, OutLayout(ti), OutCells(ti), done, OutKey(tile), TileTerm(p, x, w))
    {
      done := TileChannel(p, ti, tile, out, stage, ls, weiStage, newBot, ln, newWei, weiOff, c, newHeight, newWidth,
                          oBlock, x, w, done, zeros);
      NextChannel(p, ti.outTiles, c, oBlock);
      weiOff := weiOff + p.filterHeight * p.filterWidth * p.outputs;
    }
  }
}
