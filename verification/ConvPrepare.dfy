/** What the tiled path prepares: a padded copy of the input and weights interleaved by output block. */
module ConvPrepare {
  import opened Sums
  import opened ConvSpec
  import opened Tensors
  import opened ConvDirect

  // ---- Padding ----

  function Padded(p: Shape, x: Tensor, padding: real): Tensor {
    (u: Cell) =>
      if p.BotHas(Cell(u.n, u.c, u.y - p.padH, u.x - p.padW)) then x(Cell(u.n, u.c, u.y - p.padH, u.x - p.padW))
      else padding
  }

  lemma PaddedAt(p: Shape, x: Tensor, padding: real, u: Cell, v: Cell)
    requires v == Cell(u.n, u.c, u.y - p.padH, u.x - p.padW)
    ensures Padded(p, x, padding)(u) == if p.BotHas(v) then x(v) else padding
  {
    hide Shape.BotHas;
  }

  method PadCell(p: Shape, o: nat, c: nat, j: nat, i: nat, padding: real, x: seq<real>,
                 lx: Layout) returns (value: real)
    requires o < p.batches && c < p.inputs && Room(p.BotCells(), lx, |x|)
    ensures value == Padded(p, View(x, lx), padding)(Cell(o, c, j, i))
  {
    hide Layout.At, View, Padded;
    var srcJ, srcI := j - p.padH, i - p.padW;
    PaddedAt(p, View(x, lx), padding, Cell(o, c, j, i), Cell(o, c, srcJ, srcI));
    if srcI >= 0 && srcI < p.botWidth && srcJ >= 0 && srcJ < p.botHeight {
      assert Cell(o, c, srcJ, srcI) in p.BotCells();
      value := Read(x, lx, Cell(o, c, srcJ, srcI));
    } else {
      value := padding;
    }
  }

  /** Cells before `(n, c, y, x)` in a grid. */
  ghost predicate GridDone(cells: set<Cell>, done: set<Cell>, n: int, c: int, y: int, x: int) {
    forall u :: u in done <==>
      u in cells && (u.n < n || (u.n == n && (u.c < c || (u.c == c && (u.y < y || (u.y == y && u.x < x))))))
  }

  method Prepad(p: Shape, padding: real, x: seq<real>, lx: Layout, newBot: array<real>, ln: Layout, newHeight: nat,
                newWidth: nat)
    requires Room(p.BotCells(), lx, |x|)
    requires Room(Grid(p.batches, p.inputs, newHeight, newWidth), ln, newBot.Length)
    requires Apart(Grid(p.batches, p.inputs, newHeight, newWidth), ln)
    modifies newBot
    ensures Filled(newBot[..], old(newBot[..]), ln, Grid(p.batches, p.inputs, newHeight, newWidth),
                   Padded(p, View(x, lx), padding))
  {
    hide Layout.At, Filled, Apart, Padded;
    ghost var value, cells := Padded(p, View(x, lx), padding), Grid(p.batches, p.inputs, newHeight, newWidth);
    ghost var done: set<Cell> := {};
    FillStart(newBot[..], ln, value);
    for o := 0 to p.batches
      invariant Filled(newBot[..], old(newBot[..]), ln, done, value) && GridDone(cells, done, o, 0, 0, 0)
    {
      for c := 0 to p.inputs
        invariant Filled(newBot[..], old(newBot[..]), ln, done, value) && GridDone(cells, done, o, c, 0, 0)
      {
        for j := 0 to newHeight
          invariant Filled(newBot[..], old(newBot[..]), ln, done, value) && GridDone(cells, done, o, c, j, 0)
        {
          for i := 0 to newWidth
            invariant Filled(newBot[..], old(newBot[..]), ln, done, value) && GridDone(cells, done, o, c, j, i)
          {
            ghost var data, u := newBot[..], Cell(o, c, j, i);
            assert u in cells;
            var cell := PadCell(p, o, c, j, i, padding, x, lx);
            newBot[ln.At(Cell(o, c, j, i))] := cell;
            FillStep(data, old(newBot[..]), ln, cells, done, value, u, newBot[..]);
            done := done + {u};
          }
        }
      }
    }
    assert done == cells;
  }

  // ---- Interleaving ----

  /** The weights of a block of `tile` outputs lie together, filter row by filter row. */
  function Interleaved(p: Shape, tile: nat, c: int, oBlock: int, o: int, kj: int, ki: int): int {
    c * p.outputs * p.filterWidth * p.filterHeight + oBlock * tile * p.filterWidth * p.filterHeight
    + tile * kj * p.filterWidth + o * p.filterWidth + ki
  }

  function PlaceOf(p: Shape, tile: nat, u: Cell): int
    requires tile >= 1
  {
    Interleaved(p, tile, u.c, u.n / tile, u.n % tile, u.y, u.x)
  }

  /** The place as one mixed-radix number, when blocks are full. */
  lemma PlaceInDigits(p: Shape, tile: nat, blocks: nat, c: int, oBlock: int, o: int, kj: int, ki: int)
    requires p.outputs == blocks * tile
    ensures Interleaved(p, tile, c, oBlock, o, kj, ki)
         == (((c * blocks + oBlock) * p.filterHeight + kj) * tile + o) * p.filterWidth + ki
  {
    var kw, kh := p.filterWidth, p.filterHeight;
    calc {
      (((c * blocks + oBlock) * kh + kj) * tile + o) * kw + ki;
      == ((c * blocks + oBlock) * kh * tile + kj * tile + o) * kw + ki;
      == (c * blocks + oBlock) * kh * tile * kw + kj * tile * kw + o * kw + ki;
      == { BlockScale(c, blocks, oBlock, kh, tile, kw); }
      c * (blocks * tile) * kw * kh + oBlock * tile * kw * kh + kj * tile * kw + o * kw + ki;
    }
    assert kj * tile == tile * kj;
  }

  lemma BlockScale(c: int, blocks: int, oBlock: int, kh: int, tile: int, kw: int)
    ensures (c * blocks + oBlock) * kh * tile * kw == c * (blocks * tile) * kw * kh + oBlock * tile * kw * kh
  {
    var s := kh * tile * kw;
    assert (c * blocks + oBlock) * kh * tile * kw == (c * blocks + oBlock) * s;
    assert (c * blocks + oBlock) * s == c * blocks * s + oBlock * s;
    assert c * blocks * s == c * (blocks * tile) * kw * kh;
    assert oBlock * s == oBlock * tile * kw * kh;
  }

  ghost predicate Blocked(p: Shape, tile: nat, blocks: nat) { tile >= 1 && p.outputs == blocks * tile }

  lemma BlockOf(p: Shape, tile: nat, blocks: nat, u: Cell)
    requires Blocked(p, tile, blocks) && p.WeiHas(u)
    ensures 0 <= u.n / tile < blocks && 0 <= u.n % tile < tile && u.n == u.n / tile * tile + u.n % tile
  {
    Monotone(blocks, u.n / tile, tile);
  }

  lemma PlaceDigits(p: Shape, tile: nat, blocks: nat, u: Cell)
    requires Blocked(p, tile, blocks) && p.WeiHas(u)
    ensures PlaceOf(p, tile, u)
            == (((u.c * blocks + u.n / tile) * p.filterHeight + u.y) * tile + u.n % tile) * p.filterWidth + u.x
    ensures 0 <= u.c * blocks + u.n / tile < p.inputs * blocks
    ensures 0 <= (u.c * blocks + u.n / tile) * p.filterHeight + u.y < (p.inputs * blocks) * p.filterHeight
    ensures 0 <= ((u.c * blocks + u.n / tile) * p.filterHeight + u.y) * tile + u.n % tile
            < (p.inputs * blocks) * p.filterHeight * tile
  {
    BlockOf(p, tile, blocks, u);
    PlaceInDigits(p, tile, blocks, u.c, u.n / tile, u.n % tile, u.y, u.x);
    Below(blocks, p.inputs, u.c, u.n / tile);
    Below(p.filterHeight, p.inputs * blocks, u.c * blocks + u.n / tile, u.y);
    Below(tile, (p.inputs * blocks) * p.filterHeight, (u.c * blocks + u.n / tile) * p.filterHeight + u.y, u.n % tile);
  }

  function WeightsSize(p: Shape, tile: nat,
                       blocks: nat): nat { (p.inputs * blocks) * p.filterHeight * tile * p.filterWidth }

  lemma SizeIsWeights(p: Shape, tile: nat, blocks: nat)
    requires Blocked(p, tile, blocks)
    ensures WeightsSize(p, tile, blocks) == p.outputs * (p.inputs * (p.filterHeight * p.filterWidth))
  {
    var kh, kw := p.filterHeight, p.filterWidth;
    calc {
      (p.inputs * blocks) * kh * tile * kw;
      == p.inputs * blocks * (kh * tile) * kw;
      == p.inputs * (blocks * tile) * (kh * kw);
      == p.outputs * (p.inputs * (kh * kw));
    }
  }

  lemma InterleaveInside(p: Shape, tile: nat, blocks: nat, u: Cell)
    requires Blocked(p, tile, blocks) && p.WeiHas(u)
    ensures 0 <= PlaceOf(p, tile, u) < WeightsSize(p, tile, blocks)
  {
    PlaceDigits(p, tile, blocks, u);
    Below(p.filterWidth, (p.inputs * blocks) * p.filterHeight * tile,
          ((u.c * blocks + u.n / tile) * p.filterHeight + u.y) * tile + u.n % tile, u.x);
  }

  /** No two weights are sent to the same place. */
  lemma InterleaveApart(p: Shape, tile: nat, blocks: nat, u: Cell, v: Cell)
    requires Blocked(p, tile, blocks) && p.WeiHas(u) && p.WeiHas(v)
    requires PlaceOf(p, tile, u) == PlaceOf(p, tile, v)
    ensures u == v
  {
    PlaceDigits(p, tile, blocks, u);
    PlaceDigits(p, tile, blocks, v);
    BlockOf(p, tile, blocks, u);
    BlockOf(p, tile, blocks, v);
    var a, b := u.c * blocks + u.n / tile, v.c * blocks + v.n / tile;
    Digits(p.filterWidth, (a * p.filterHeight + u.y) * tile + u.n % tile, u.x,
           (b * p.filterHeight + v.y) * tile + v.n % tile, v.x);
    Digits(tile, a * p.filterHeight + u.y, u.n % tile, b * p.filterHeight + v.y, v.n % tile);
    Digits(p.filterHeight, a, u.y, b, v.y);
    Digits(blocks, u.c, u.n / tile, v.c, v.n / tile);
  }

  /** The weight that was sent to a place. */
  function SentTo(p: Shape, tile: nat, blocks: nat, q: nat): Cell
    requires tile >= 1 && blocks >= 1 && p.filterHeight >= 1 && p.filterWidth >= 1
  {
    var row := q / p.filterWidth;
    var group := row / tile;
    var block := group / p.filterHeight;
    Cell(block % blocks * tile + row % tile, block / blocks, group % p.filterHeight, q % p.filterWidth)
  }

  /** Every place of the buffer receives a weight. */
  lemma InterleaveCovers(p: Shape, tile: nat, blocks: nat, q: nat)
    requires Blocked(p, tile, blocks) && blocks >= 1 && p.filterHeight >= 1 && p.filterWidth >= 1
    requires q < WeightsSize(p, tile, blocks)
    ensures p.WeiHas(SentTo(p, tile, blocks, q)) && PlaceOf(p, tile, SentTo(p, tile, blocks, q)) == q
  {
    var row := q / p.filterWidth;
    var group := row / tile;
    var block := group / p.filterHeight;
    QuotientBelow(q, p.filterWidth, (p.inputs * blocks) * p.filterHeight * tile);
    QuotientBelow(row, tile, (p.inputs * blocks) * p.filterHeight);
    QuotientBelow(group, p.filterHeight, p.inputs * blocks);
    QuotientBelow(block, blocks, p.inputs);
    var u := SentTo(p, tile, blocks, q);
    Below(tile, blocks, block % blocks, row % tile);
    DivisionIs(tile, block % blocks, row % tile);
    PlaceInDigits(p, tile, blocks, u.c, u.n / tile, u.n % tile, u.y, u.x);
  }

  /** With blocks that are not full, filters of more than one row are sent past the end of the buffer. */
  lemma InterleaveFits(p: Shape, tile: nat)
    requires tile >= 1 && p.inputs >= 1 && p.outputs >= 1 && p.filterHeight >= 1 && p.filterWidth >= 1
    ensures (forall u :: p.WeiHas(u) ==>
             0 <= PlaceOf(p, tile, u) < p.outputs * (p.inputs * (p.filterHeight * p.filterWidth)))
       <==> p.outputs % tile == 0 || p.filterHeight == 1
  {
    if p.outputs % tile == 0 {
      var blocks := p.outputs / tile;
      SizeIsWeights(p, tile, blocks);
      forall u | p.WeiHas(u)
        ensures 0 <= PlaceOf(p, tile, u) < p.outputs * (p.inputs * (p.filterHeight * p.filterWidth)) {
        InterleaveInside(p, tile, blocks, u);
      }
    } else if p.filterHeight == 1 {
      forall u | p.WeiHas(u)
        ensures 0 <= PlaceOf(p, tile, u) < p.outputs * (p.inputs * (p.filterHeight * p.filterWidth)) {
        OneRowFits(p, tile, u);
      }
    } else {
      LastWeightLeaves(p, tile);
    }
  }

  lemma OneRowFits(p: Shape, tile: nat, u: Cell)
    requires tile >= 1 && p.filterHeight == 1 && p.WeiHas(u)
    ensures 0 <= PlaceOf(p, tile, u) < p.outputs * (p.inputs * (p.filterHeight * p.filterWidth))
  {
    OneRowPlace(p, tile, u);
    Below(p.outputs, p.inputs, u.c, u.n);
    Below(p.filterWidth, p.inputs * p.outputs, u.c * p.outputs + u.n, u.x);
  }

  lemma LastWeightLeaves(p: Shape, tile: nat)
    requires tile >= 1 && p.inputs >= 1 && p.outputs >= 1 && p.filterHeight >= 2 && p.filterWidth >= 1
    requires p.outputs % tile != 0
    ensures var u := Cell(p.outputs - 1, p.inputs - 1, p.filterHeight - 1, 0);
            p.WeiHas(u) && PlaceOf(p, tile, u) >= p.outputs * (p.inputs * (p.filterHeight * p.filterWidth))
  {
    var n, kh, kw := p.outputs, p.filterHeight, p.filterWidth;
    var rest, block := n % tile, n / tile;
    LastOfBlock(n, tile);
    PastTheEnd(n, p.inputs, block * tile, rest, tile, kh, kw);
    LastPlace(p, tile, block, rest);
  }

  lemma LastOfBlock(n: nat, tile: nat)
    requires tile >= 1 && n % tile != 0
    ensures (n - 1) / tile == n / tile && (n - 1) % tile == n % tile - 1
  {
    DivisionIs(tile, n / tile, n % tile - 1);
  }

  lemma LastPlace(p: Shape, tile: nat, block: nat, rest: nat)
    requires tile >= 1 && p.inputs >= 1 && p.outputs >= 1 && p.filterHeight >= 1 && rest >= 1
    requires (p.outputs - 1) / tile == block && (p.outputs - 1) % tile == rest - 1
    ensures PlaceOf(p, tile, Cell(p.outputs - 1, p.inputs - 1, p.filterHeight - 1, 0))
         == (p.inputs - 1) * p.outputs * p.filterWidth * p.filterHeight + block * tile * p.filterWidth * p.filterHeight
            + tile * (p.filterHeight - 1) * p.filterWidth + (rest - 1) * p.filterWidth
  {
  }

  lemma PastTheEnd(n: nat, inputs: nat, whole: nat, rest: nat, tile: nat, kh: nat, kw: nat)
    requires n == whole + rest && 1 <= rest < tile && kh >= 2 && inputs >= 1
    ensures (inputs - 1) * n * kw * kh + whole * kw * kh + tile * (kh - 1) * kw + (rest - 1) * kw
            >= n * (inputs * (kh * kw))
  {
    RowsPast(rest, tile, kh, kw);
    Planes(n, inputs, kh, kw);
    WholeAndRest(n, whole, rest, kh, kw);
  }

  lemma WholeAndRest(n: nat, whole: nat, rest: nat, kh: nat, kw: nat)
    requires n == whole + rest
    ensures n * (kh * kw) == whole * kw * kh + rest * (kh * kw)
  {
    assert whole * kw * kh == whole * (kh * kw);
  }

  lemma Planes(n: nat, inputs: nat, kh: nat, kw: nat)
    requires inputs >= 1
    ensures (inputs - 1) * n * kw * kh == (inputs - 1) * (n * (kh * kw))
    ensures n * (inputs * (kh * kw)) == (inputs - 1) * (n * (kh * kw)) + n * (kh * kw)
  {
  }

  lemma RowsPast(rest: nat, tile: nat, kh: nat, kw: nat)
    requires 1 <= rest < tile && kh >= 2
    ensures tile * (kh - 1) * kw + (rest - 1) * kw >= rest * (kh * kw)
  {
    var rows := tile * (kh - 1) + (rest - 1);
    assert rows >= rest * kh by {
      assert (tile - rest) * (kh - 1) >= 1;
      assert tile * (kh - 1) == (tile - rest) * (kh - 1) + rest * (kh - 1);
      assert rest * (kh - 1) == rest * kh - rest;
    }
    assert rows * kw >= rest * kh * kw;
  }

  lemma OneRowPlace(p: Shape, tile: nat, u: Cell)
    requires tile >= 1 && p.filterHeight == 1 && p.WeiHas(u)
    ensures PlaceOf(p, tile, u) == (u.c * p.outputs + u.n) * p.filterWidth + u.x
  {
    var kw := p.filterWidth;
    var block := u.n / tile * tile;
    assert PlaceOf(p, tile, u) == u.c * p.outputs * kw + block * kw + u.n % tile * kw + u.x;
    assert block * kw + u.n % tile * kw == u.n * kw by { assert (block + u.n % tile) * kw == u.n * kw; }
    assert u.c * p.outputs * kw + u.n * kw == (u.c * p.outputs + u.n) * kw;
  }

  lemma OneRowApart(p: Shape, tile: nat, u: Cell, v: Cell)
    requires tile >= 1 && p.filterHeight == 1 && p.WeiHas(u) && p.WeiHas(v)
    requires PlaceOf(p, tile, u) == PlaceOf(p, tile, v)
    ensures u == v
  {
    hide PlaceOf;
    OneRowPlace(p, tile, u);
    OneRowPlace(p, tile, v);
    Digits(p.filterWidth, u.c * p.outputs + u.n, u.x, v.c * p.outputs + v.n, v.x);
    Digits(p.outputs, u.c, u.n, v.c, v.n);
  }

  /** Full blocks, or filters of one row: when the interleaved weights fit. */
  predicate Interleavable(p: Shape, tile: nat) { tile >= 1 && (p.outputs % tile == 0 || p.filterHeight == 1) }

  lemma PlaceInside(p: Shape, tile: nat, u: Cell)
    requires Interleavable(p, tile) && p.WeiHas(u)
    ensures 0 <= PlaceOf(p, tile, u) < WeightCount(p)
  {
    hide PlaceOf;
    if p.outputs % tile == 0 {
      SizeIsWeights(p, tile, p.outputs / tile);
      InterleaveInside(p, tile, p.outputs / tile, u);
    } else {
      OneRowFits(p, tile, u);
    }
  }

  lemma PlacesApart(p: Shape, tile: nat, u: Cell, v: Cell)
    requires Interleavable(p, tile) && p.WeiHas(u) && p.WeiHas(v) && PlaceOf(p, tile, u) == PlaceOf(p, tile, v)
    ensures u == v
  {
    hide PlaceOf;
    if p.outputs % tile == 0 { InterleaveApart(p, tile, p.outputs / tile, u, v); } else { OneRowApart(p, tile, u, v); }
  }

  /** All weights that are copied before the one at `(c, n, kj, ki)` are at their places. */
  ghost predicate Copied(p: Shape, tile: nat, w: Tensor, newWei: seq<real>, c: int, n: int, kj: int, ki: int)
    requires tile >= 1
  {
    forall u ::
      p.WeiHas(u) && (u.c < c || (u.c == c && (u.n < n || (u.n == n && (u.y < kj || (u.y == kj && u.x < ki)))))) ==>
        0 <= PlaceOf(p, tile, u) < |newWei| && newWei[PlaceOf(p, tile, u)] == w(u)
  }

  function BlockStart(oBlock: nat, tile: nat): nat { oBlock * tile }

  method CopyWeight(p: Shape, tile: nat, w: seq<real>, lw: Layout, newWei: array<real>, c: nat, oBlock: nat, o: nat,
                    kj: nat, ki: nat)
    requires Interleavable(p, tile) && Room(p.WeiCells(), lw, |w|) && newWei.Length >= WeightCount(p)
    requires p.WeiHas(Cell(BlockStart(oBlock, tile) + o, c, kj, ki)) && o < tile
    requires Copied(p, tile, View(w, lw), newWei[..], c, BlockStart(oBlock, tile) + o, kj, ki)
    modifies newWei
    ensures Copied(p, tile, View(w, lw), newWei[..], c, BlockStart(oBlock, tile) + o, kj, ki + 1)
  {
    hide Layout.At, View, Interleaved, WeightCount, Interleavable;
    ghost var t := Cell(BlockStart(oBlock, tile) + o, c, kj, ki);
    DivisionIs(tile, oBlock, o);
    PlaceInside(p, tile, t);
    assert t in p.WeiCells();
    ghost var before := newWei[..];
    newWei[Interleaved(p, tile, c, oBlock, o, kj, ki)] := Read(w, lw, Cell(BlockStart(oBlock, tile) + o, c, kj, ki));
    forall u | p.WeiHas(u)
      && (u.c < c || (u.c == c && (u.n < t.n || (u.n == t.n && (u.y < kj || (u.y == kj && u.x < ki + 1))))))
      ensures 0 <= PlaceOf(p, tile, u) < newWei.Length && newWei[PlaceOf(p, tile, u)] == View(w, lw)(u)
    {
      if u != t && PlaceOf(p, tile, u) == PlaceOf(p, tile, t) { PlacesApart(p, tile, u, t); }
    }
  }

  /** All weights, to their places. */
  method InterleaveWeights(p: Shape, tile: nat, w: seq<real>, lw: Layout, newWei: array<real>)
    requires Interleavable(p, tile) && Room(p.WeiCells(), lw, |w|) && newWei.Length >= WeightCount(p)
    modifies newWei
    ensures forall u :: p.WeiHas(u) ==>
              0 <= PlaceOf(p, tile, u) < newWei.Length && newWei[PlaceOf(p, tile, u)] == View(w, lw)(u)
  {
    hide Layout.At, View, Interleaved, WeightCount, PlaceOf;
    var oLoops := (p.outputs + tile - 1) / tile;
    assert p.outputs <= BlockStart(oLoops, tile);
    for c := 0 to p.inputs
      invariant Copied(p, tile, View(w, lw), newWei[..], c, 0, 0, 0)
    {
      for oBlock := 0 to oLoops
        invariant Copied(p, tile, View(w, lw), newWei[..], c, BlockStart(oBlock, tile), 0, 0)
      {
        InterleaveBlock(p, tile, w, lw, newWei, c, oBlock);
      }
    }
  }

  lemma BlockEnds(oBlock: nat, tile: nat)
    ensures BlockStart(oBlock + 1, tile) == BlockStart(oBlock, tile) + tile
  {
  }

  /** One block of outputs, cut short where the outputs end. */
  method InterleaveBlock(p: Shape, tile: nat, w: seq<real>, lw: Layout, newWei: array<real>, c: nat, oBlock: nat)
    requires Interleavable(p, tile) && Room(p.WeiCells(), lw, |w|) && newWei.Length >= WeightCount(p)
    requires c < p.inputs
    requires Copied(p, tile, View(w, lw), newWei[..], c, BlockStart(oBlock, tile), 0, 0)
    modifies newWei
    ensures Copied(p, tile, View(w, lw), newWei[..], c, BlockStart(oBlock + 1, tile), 0, 0)
  {
    hide Layout.At, View, Interleaved, WeightCount, PlaceOf, BlockStart;
    BlockEnds(oBlock, tile);
    var o := 0;
    while o < tile && BlockStart(oBlock, tile) + o < p.outputs
      invariant 0 <= o <= tile
      invariant Copied(p, tile, View(w, lw), newWei[..], c, BlockStart(oBlock, tile) + o, 0, 0)
    {
      for kj := 0 to p.filterHeight
        invariant Copied(p, tile, View(w, lw), newWei[..], c, BlockStart(oBlock, tile) + o, kj, 0)
      {
        for ki := 0 to p.filterWidth
          invariant Copied(p, tile, View(w, lw), newWei[..], c, BlockStart(oBlock, tile) + o, kj, ki)
        {
          CopyWeight(p, tile, w, lw, newWei, c, oBlock, o, kj, ki);
        }
      }
      o := o + 1;
    }
  }
}
