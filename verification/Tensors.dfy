/** Tensors in flat memory: strided layouts, filling cells one by one, and scattering sums into cells. */
module Tensors {
  import opened Sums

  /** Batch, channel, row and column; for weights, output channel, input channel, filter row and column. */
  datatype Cell = Cell(n: int, c: int, y: int, x: int)

  type Tensor = Cell -> real

  function Grid(n: nat, c: nat, h: nat, w: nat): (s: set<Cell>)
    ensures forall u: Cell :: u in s <==> 0 <= u.n < n && 0 <= u.c < c && 0 <= u.y < h && 0 <= u.x < w
  {
    set b, o, y, x | 0 <= b < n && 0 <= o < c && 0 <= y < h && 0 <= x < w :: Cell(b, o, y, x)
  }

  function Times(a: Tensor, b: Tensor): Tensor { u => a(u) * b(u) }

  ghost function Inner(cells: set<Cell>, a: Tensor, b: Tensor): real { SumOver(cells, Times(a, b)) }

  /** Strides of a tensor whose columns are adjacent. */
  datatype Layout = Layout(n: nat, c: nat, y: nat) {
    function At(u: Cell): int { u.n * n + u.c * c + u.y * y + u.x }
  }

  /** The tensor that memory holds under a layout; zero outside the memory. */
  function View(data: seq<real>, l: Layout): Tensor {
    u => if 0 <= l.At(u) < |data| then data[l.At(u)] else 0.0
  }

  function Read(data: seq<real>, l: Layout, u: Cell): (value: real)
    requires 0 <= l.At(u) < |data|
    ensures value == View(data, l)(u)
  {
    data[l.At(u)]
  }

  ghost predicate Room(cells: set<Cell>, l: Layout, size: nat) {
    forall u :: u in cells ==> 0 <= l.At(u) < size
  }

  ghost predicate Apart(cells: set<Cell>, l: Layout) {
    forall u, v :: u in cells && v in cells && l.At(u) == l.At(v) ==> u == v
  }

  predicate Misses(cells: set<Cell>, l: Layout, q: int) {
    forall u :: u in cells ==> l.At(u) != q
  }

  function Packed(channels: nat, height: nat, width: nat): Layout {
    Layout(channels * (height * width), height * width, width)
  }

  lemma Monotone(a: int, b: int, width: nat)
    ensures a <= b ==> a * width <= b * width
  {
  }

  lemma Digits(width: nat, a: int, b: int, c: int, d: int)
    requires 0 <= b < width && 0 <= d < width
    ensures a * width + b == c * width + d ==> a == c && b == d
  {
    if a < c {
      assert (a + 1) * width <= c * width;
    } else if c < a {
      assert (c + 1) * width <= a * width;
    }
  }

  lemma Below(width: nat, height: nat, a: int, b: int)
    requires 0 <= b < width && 0 <= a < height
    ensures 0 <= a * width + b < height * width
  {
    assert (a + 1) * width <= height * width;
  }

  lemma DivisionIs(width: nat, a: int, b: int)
    requires 0 <= b < width
    ensures (a * width + b) / width == a && (a * width + b) % width == b
  {
    Digits(width, a, b, (a * width + b) / width, (a * width + b) % width);
  }

  lemma QuotientBelow(q: nat, width: nat, height: nat)
    requires width >= 1 && q < height * width
    ensures q / width < height && q == q / width * width + q % width
  {
    Monotone(height, q / width, width);
  }

  lemma PackedAt(channels: nat, height: nat, width: nat, u: Cell)
    ensures Packed(channels, height, width).At(u)
            == u.n * (channels * (height * width)) + (u.c * (height * width) + (u.y * width + u.x))
  {
  }

  /** Packed tensors stay inside their memory and no two cells share a place. */
  lemma PackedIsSound(batches: nat, channels: nat, height: nat, width: nat)
    ensures Room(Grid(batches, channels, height, width), Packed(channels, height, width),
                 batches * (channels * (height * width)))
    ensures Apart(Grid(batches, channels, height, width), Packed(channels, height, width))
  {
    var cells, l := Grid(batches, channels, height, width), Packed(channels, height, width);
    var plane := height * width;
    forall u | u in cells ensures 0 <= l.At(u) < batches * (channels * plane) {
      PackedAt(channels, height, width, u);
      Below(width, height, u.y, u.x);
      Below(plane, channels, u.c, u.y * width + u.x);
      Below(channels * plane, batches, u.n, u.c * plane + (u.y * width + u.x));
    }
    forall u, v | u in cells && v in cells && l.At(u) == l.At(v) ensures u == v {
      PackedApart(batches, channels, height, width, u, v);
    }
  }

  lemma PackedApart(batches: nat, channels: nat, height: nat, width: nat, u: Cell, v: Cell)
    requires u in Grid(batches, channels, height, width) && v in Grid(batches, channels, height, width)
    requires Packed(channels, height, width).At(u) == Packed(channels, height, width).At(v)
    ensures u == v
  {
    var plane := height * width;
    PackedAt(channels, height, width, u);
    PackedAt(channels, height, width, v);
    Below(width, height, u.y, u.x);
    Below(width, height, v.y, v.x);
    Below(plane, channels, u.c, u.y * width + u.x);
    Below(plane, channels, v.c, v.y * width + v.x);
    Digits(channels * plane, u.n, u.c * plane + (u.y * width + u.x), v.n, v.c * plane + (v.y * width + v.x));
    Digits(plane, u.c, u.y * width + u.x, v.c, v.y * width + v.x);
    Digits(width, u.y, u.x, v.y, v.x);
  }

  /** And no place is left over. */
  lemma PackedFills(batches: nat, channels: nat, height: nat, width: nat, q: nat) returns (u: Cell)
    requires q < batches * (channels * (height * width))
    ensures u in Grid(batches, channels, height, width) && Packed(channels, height, width).At(u) == q
  {
    var plane := height * width;
    var n, r := Split(q, channels * plane, batches);
    var c, s := Split(r, plane, channels);
    var y, x := Split(s, width, height);
    u := Cell(n, c, y, x);
    PackedAt(channels, height, width, u);
  }

  lemma Split(q: nat, width: nat, height: nat) returns (a: nat, b: nat)
    requires q < height * width
    ensures a < height && b < width && q == a * width + b
  {
    NoWidth(height, width);
    QuotientBelow(q, width, height);
    a, b := q / width, q % width;
  }

  lemma NoWidth(height: nat, width: nat)
    ensures width == 0 ==> height * width == 0
  {
  }

  // ---- Filling ----

  /** The cells in `done` hold their value, every other place what it held before. */
  ghost predicate Filled(data: seq<real>, before: seq<real>, l: Layout, done: set<Cell>, value: Tensor) {
    && |data| == |before|
    && (forall u :: u in done ==> 0 <= l.At(u) < |data| && data[l.At(u)] == value(u))
    && forall q :: 0 <= q < |data| && Misses(done, l, q) ==> data[q] == before[q]
  }

  lemma FillStart(before: seq<real>, l: Layout, value: Tensor)
    ensures Filled(before, before, l, {}, value)
  {
  }

  lemma FillStep(data: seq<real>, before: seq<real>, l: Layout, cells: set<Cell>, done: set<Cell>, value: Tensor,
                 u: Cell, data': seq<real>)
    requires Apart(cells, l) && Room(cells, l, |data|) && done <= cells && u in cells
    requires Filled(data, before, l, done, value)
    requires 0 <= l.At(u) < |data| && data' == data[l.At(u) := value(u)]
    ensures Filled(data', before, l, done + {u}, value)
  {
    hide Layout.At;
    forall q | 0 <= q < |data| && Misses(done + {u}, l, q) ensures data'[q] == before[q] {
      assert u in done + {u};
      assert Misses(done, l, q);
    }
  }

  // ---- Scattering ----

  /** Every cell has gained the terms in `done` that fall to it. */
  ghost predicate Scattered<T(!new)>(data: seq<real>, before: seq<real>, l: Layout, cells: set<Cell>, done: set<T>,
                                     key: T -> Cell, f: T -> real)
  {
    && |data| == |before|
    && (forall u :: u in cells ==> 0 <= l.At(u) < |data| && data[l.At(u)] == before[l.At(u)] + Share(done, key, f, u))
    && forall q :: 0 <= q < |data| && Misses(cells, l, q) ==> data[q] == before[q]
  }

  lemma ScatterStart<T(!new)>(before: seq<real>, l: Layout, cells: set<Cell>, key: T -> Cell, f: T -> real)
    requires Room(cells, l, |before|)
    ensures Scattered(before, before, l, cells, {}, key, f)
  {
    forall u ensures Share({}, key, f, u) == 0.0 {
      assert Fibre({}, key, u) == {};
    }
  }

  lemma ScatterStep<T(!new)>(data: seq<real>, before: seq<real>, l: Layout, cells: set<Cell>, done: set<T>, t: T,
                             key: T -> Cell, f: T -> real, data': seq<real>)
    requires Apart(cells, l) && t !in done && key(t) in cells
    requires Scattered(data, before, l, cells, done, key, f)
    requires 0 <= l.At(key(t)) < |data| && data' == data[l.At(key(t)) := data[l.At(key(t))] + f(t)]
    ensures Scattered(data', before, l, cells, done + {t}, key, f)
  {
    hide Layout.At;
    forall u | u in cells
      ensures 0 <= l.At(u) < |data'| && data'[l.At(u)] == before[l.At(u)] + Share(done + {t}, key, f, u)
    {
      ShareInsert(done, t, key, f, u);
    }
  }

  /** Adds one term to its cell, in place. */
  method ScatterAdd<T(!new)>(a: array<real>, l: Layout, u: Cell, term: real, ghost t: T, ghost done: set<T>,
                             ghost before: seq<real>, ghost cells: set<Cell>, ghost key: T -> Cell, ghost f: T -> real)
    requires Apart(cells, l) && u in cells && t !in done && key(t) == u && f(t) == term
    requires Scattered(a[..], before, l, cells, done, key, f)
    modifies a
    ensures Scattered(a[..], before, l, cells, done + {t}, key, f)
  {
    hide Layout.At, Apart;
    ghost var data := a[..];
    a[l.At(u)] := a[l.At(u)] + term;
    ScatterStep(data, before, l, cells, done, t, key, f, a[..]);
  }
}
