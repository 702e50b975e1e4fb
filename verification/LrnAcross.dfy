/** Normalisation across channels: one running sum per pixel, in four phases, forward and backward. */
module LrnAcross {
  import opened Sums
  import opened Tensors
  import opened LrnWindow

  datatype Lrn = Lrn(batches: nat, channels: nat, height: nat, width: nat, pad: nat, area: nat) {
    function Cells(): set<Cell> { Grid(batches, channels, height, width) }

    /** Channels before the centre of a window; `pad` channels lie after it. */
    function PrePad(): int { area - 1 - pad }

    predicate Sufficient() { area >= 1 + pad }
  }

  // ---- What is written ----

  function Squares(x: Tensor, u: Cell): int -> real {
    (c: int) => x(Cell(u.n, c, u.y, u.x)) * x(Cell(u.n, c, u.y, u.x))
  }

  ghost function ScaleAcross(p: Lrn, x: Tensor, k: real, alphaOverArea: real): Tensor
    requires p.Sufficient()
  {
    (u: Cell) => k + SumOver(Window(p.channels, u.c, p.PrePad(), p.pad), Squares(x, u)) * alphaOverArea
  }

  /** `power` raises to minus beta. */
  ghost function Normalised(x: Tensor, scale: Tensor, power: real -> real): Tensor {
    (u: Cell) => x(u) * power(scale(u))
  }

  function Ratios(y: Tensor, dy: Tensor, scale: Tensor, u: Cell): int -> real {
    (c: int) =>
      var v := Cell(u.n, c, u.y, u.x);
      if scale(v) == 0.0 then 0.0 else dy(v) * y(v) / scale(v)
  }

  ghost function GradientAcross(p: Lrn, x: Tensor, y: Tensor, dy: Tensor, scale: Tensor, ratio: real,
                                power: real -> real): Tensor
    requires p.Sufficient()
  {
    (u: Cell) => dy(u) * power(scale(u)) - ratio * x(u)
      * SumOver(Window(p.channels, u.c, p.pad, p.PrePad()), Ratios(y, dy, scale, u))
  }

  // ---- The running sum ----

  /** `accum` is the sum over the last `area` channels before `head`. */
  ghost predicate Running(p: Lrn, f: int -> real, accum: real, head: int) {
    accum == SumOver(Span(p.channels, head - p.area, head), f)
  }

  lemma RunningStarts(p: Lrn, f: int -> real)
    ensures Running(p, f, 0.0, 0)
  {
    assert Span(p.channels, 0 - p.area, 0) == {};
  }

  /** Adding one channel and dropping the one that leaves. */
  lemma RunningMoves(p: Lrn, f: int -> real, accum: real, head: nat, next: real)
    requires p.area >= 1 && Running(p, f, accum, head)
    requires next
             == accum + (if head < p.channels then f(head) else 0.0)
                - (if 0 <= head - p.area < p.channels then f(head - p.area) else 0.0)
    ensures Running(p, f, next, head + 1)
  {
    SpanAdd(p.channels, head - p.area, head, f);
    SpanDrop(p.channels, head - p.area, head + 1, f);
  }

  /** Cells of the pixel's column with a channel below `c`, and everything in `before`. */
  ghost predicate ColumnDone(p: Lrn, before: set<Cell>, done: set<Cell>, b: int, j: int, i: int, c: int) {
    forall u :: u in done <==> u in before || (u in p.Cells() && u.n == b && u.y == j && u.x == i && u.c < c)
  }

  // ---- Forward ----

  /** What the forward pass needs besides the tensors themselves. */
  datatype Scaling = Scaling(doScale: bool, k: real, alphaOverArea: real, power: real -> real)

  /** The cells in `done` hold the scale, if it is asked for, and the normalised value; nothing else has changed. */
  ghost predicate ForwardSoFar(p: Lrn, s: Scaling, x: Tensor, value: Tensor, scale: seq<real>, scale0: seq<real>,
                               ls: Layout, top: seq<real>, top0: seq<real>, lt: Layout, done: set<Cell>)
  {
    && done <= p.Cells()
    && Filled(scale, scale0, ls, if s.doScale then done else {}, value)
    && Filled(top, top0, lt, done, Normalised(x, value, s.power))
  }

  lemma NothingForward(p: Lrn, s: Scaling, x: Tensor, value: Tensor, scale: seq<real>, ls: Layout, top: seq<real>,
                       lt: Layout)
    ensures ForwardSoFar(p, s, x, value, scale, scale, ls, top, top, lt, {})
  {
    FillStart(scale, ls, value);
    FillStart(top, lt, Normalised(x, value, s.power));
  }

  ghost predicate Roomy(p: Lrn, l: Layout, size: nat) { Room(p.Cells(), l, size) && Apart(p.Cells(), l) }

  /** Writes one cell from its scale. */
  method EmitForward(p: Lrn, s: Scaling, x: seq<real>, lx: Layout, scale: array<real>, ls: Layout, top: array<real>,
                     lt: Layout, u: Cell, scaled: real, ghost value: Tensor, ghost done: set<Cell>,
                     ghost scale0: seq<real>, ghost top0: seq<real>)
    returns (ghost next: set<Cell>)
    requires u in p.Cells() && scale != top && scaled == value(u)
    requires Room(p.Cells(), lx, |x|) && Roomy(p, ls, scale.Length) && Roomy(p, lt, top.Length)
    requires ForwardSoFar(p, s, View(x, lx), value, scale[..], scale0, ls, top[..], top0, lt, done)
    modifies scale, top
    ensures ForwardSoFar(p, s, View(x, lx), value, scale[..], scale0, ls, top[..], top0, lt, next)
    ensures next == done + {u}
  {
    hide Layout.At, Apart, Filled, View;
    ghost var data := scale[..];
    if s.doScale {
      scale[ls.At(u)] := scaled;
      FillStep(data, scale0, ls, p.Cells(), done, value, u, scale[..]);
    }
    data := top[..];
    var normal := Read(x, lx, u) * s.power(scaled);
    assert normal == Normalised(View(x, lx), value, s.power)(u);
    top[lt.At(u)] := normal;
    FillStep(data, top0, lt, p.Cells(), done, Normalised(View(x, lx), value, s.power), u, top[..]);
    next := done + {u};
  }

  lemma ScaleIs(p: Lrn, s: Scaling, x: Tensor, u: Cell, accum: real)
    requires p.Sufficient() && Running(p, Squares(x, Cell(u.n, 0, u.y, u.x)), accum, u.c + p.pad + 1)
    ensures s.k + accum * s.alphaOverArea == ScaleAcross(p, x, s.k, s.alphaOverArea)(u)
  {
    SumSame(Window(p.channels, u.c, p.PrePad(), p.pad), Squares(x, u), Squares(x, Cell(u.n, 0, u.y, u.x)));
  }

  /** The square of one channel, or nothing outside the channels. */
  method Square(p: Lrn, x: seq<real>, lx: Layout, b: nat, j: nat, i: nat, c: int) returns (square: real)
    requires b < p.batches && j < p.height && i < p.width && Room(p.Cells(), lx, |x|)
    ensures square == if 0 <= c < p.channels then Squares(View(x, lx), Cell(b, 0, j, i))(c) else 0.0
  {
    hide Layout.At, View;
    var value := 0.0;
    if 0 <= c < p.channels {
      assert Cell(b, c, j, i) in p.Cells();
      value := Read(x, lx, Cell(b, c, j, i));
    }
    square := value * value;
  }

  lemma ColumnBegins(p: Lrn, before: set<Cell>, b: int, j: int, i: int)
    ensures ColumnDone(p, before, before, b, j, i, 0)
  {
  }

  lemma ColumnEnds(p: Lrn, before: set<Cell>, done: set<Cell>, b: int, j: int, i: int, c: int)
    requires ColumnDone(p, before, done, b, j, i, c) && c >= p.channels
    ensures ColumnDone(p, before, done, b, j, i, p.channels)
  {
  }

  lemma ColumnStep(p: Lrn, before: set<Cell>, done: set<Cell>, next: set<Cell>, b: int, j: int, i: int, c: int)
    requires ColumnDone(p, before, done, b, j, i, c)
    requires next == if 0 <= c < p.channels && Cell(b, c, j, i) in p.Cells() then done + {Cell(b, c, j, i)} else done
    ensures ColumnDone(p, before, next, b, j, i, c + 1)
  {
  }

  /** The first two phases: add only, then add and write. */
  method ForwardOpening(p: Lrn, s: Scaling, x: seq<real>, lx: Layout, scale: array<real>, ls: Layout, top: array<real>,
                        lt: Layout, b: nat, j: nat, i: nat, ghost before: set<Cell>, ghost scale0: seq<real>,
                        ghost top0: seq<real>)
    returns (accum: real, ghost done: set<Cell>)
    requires p.Sufficient() && b < p.batches && j < p.height && i < p.width && scale != top
    requires Room(p.Cells(), lx, |x|) && Roomy(p, ls, scale.Length) && Roomy(p, lt, top.Length)
    requires ForwardSoFar(p, s, View(x, lx), ScaleAcross(p, View(x, lx), s.k, s.alphaOverArea), scale[..], scale0, ls,
                          top[..], top0, lt, before)
    modifies scale, top
    ensures ForwardSoFar(p, s, View(x, lx), ScaleAcross(p, View(x, lx), s.k, s.alphaOverArea), scale[..], scale0, ls,
                         top[..], top0, lt, done)
    ensures ColumnDone(p, before, done, b, j, i, p.area - p.pad)
    ensures Running(p, Squares(View(x, lx), Cell(b, 0, j, i)), accum, p.area)
  {
    hide Layout.At, Apart, Room, Filled, View, Squares, SumOver, Running, ForwardSoFar, ScaleAcross, ColumnDone;
    ghost var f, value := Squares(View(x, lx), Cell(b, 0, j, i)), ScaleAcross(p, View(x, lx), s.k, s.alphaOverArea);
    var head := 0;
    accum := 0.0;
    RunningStarts(p, f);
    done := before;
    while head < p.pad
      invariant 0 <= head <= p.pad && Running(p, f, accum, head)
      invariant ForwardSoFar(p, s, View(x, lx), value, scale[..], scale0, ls, top[..], top0, lt, done)
    {
      var square := Square(p, x, lx, b, j, i, head);
      RunningMoves(p, f, accum, head, accum + square);
      accum := accum + square;
      head := head + 1;
    }
    ColumnBegins(p, before, b, j, i);
    while head < p.area
      invariant p.pad <= head <= p.area && Running(p, f, accum, head)
      invariant ForwardSoFar(p, s, View(x, lx), value, scale[..], scale0, ls, top[..], top0, lt, done)
      invariant ColumnDone(p, before, done, b, j, i, head - p.pad)
    {
      var square := Square(p, x, lx, b, j, i, head);
      RunningMoves(p, f, accum, head, accum + square);
      accum := accum + square;
      var scaled := s.k + accum * s.alphaOverArea;
      ScaleIs(p, s, View(x, lx), Cell(b, head - p.pad, j, i), accum);
      ghost var was := done;
      if head - p.pad >= 0 && head - p.pad < p.channels {
        done := EmitForward(p, s, x, lx, scale, ls, top, lt, Cell(b, head - p.pad, j, i), scaled, value, done, scale0,
                            top0);
      }
      ColumnStep(p, before, was, done, b, j, i, head - p.pad);
      head := head + 1;
    }
  }

  /** The last two phases: add and subtract, then subtract only. */
  method ForwardClosing(p: Lrn, s: Scaling, x: seq<real>, lx: Layout, scale: array<real>, ls: Layout, top: array<real>,
                        lt: Layout, b: nat, j: nat, i: nat, accumSoFar: real, ghost before: set<Cell>,
                        ghost doneSoFar: set<Cell>, ghost scale0: seq<real>, ghost top0: seq<real>)
    returns (ghost done: set<Cell>)
    requires p.Sufficient() && b < p.batches && j < p.height && i < p.width && scale != top
    requires Room(p.Cells(), lx, |x|) && Roomy(p, ls, scale.Length) && Roomy(p, lt, top.Length)
    requires ForwardSoFar(p, s, View(x, lx), ScaleAcross(p, View(x, lx), s.k, s.alphaOverArea), scale[..], scale0, ls,
                          top[..], top0, lt, doneSoFar)
    requires ColumnDone(p, before, doneSoFar, b, j, i, p.area - p.pad)
    requires Running(p, Squares(View(x, lx), Cell(b, 0, j, i)), accumSoFar, p.area)
    modifies scale, top
    ensures ForwardSoFar(p, s, View(x, lx), ScaleAcross(p, View(x, lx), s.k, s.alphaOverArea), scale[..], scale0, ls,
                         top[..], top0, lt, done)
    ensures ColumnDone(p, before, done, b, j, i, p.channels)
  {
    hide Layout.At, Apart, Room, Filled, View, Squares, SumOver, Running, ForwardSoFar, ScaleAcross, ColumnDone;
    ghost var f, value := Squares(View(x, lx), Cell(b, 0, j, i)), ScaleAcross(p, View(x, lx), s.k, s.alphaOverArea);
    var accum, head := accumSoFar, p.area;
    done := doneSoFar;
    while head < p.channels
      invariant p.area <= head && Running(p, f, accum, head)
      invariant ForwardSoFar(p, s, View(x, lx), value, scale[..], scale0, ls, top[..], top0, lt, done)
      invariant ColumnDone(p, before, done, b, j, i, head - p.pad)
    {
      var square := Square(p, x, lx, b, j, i, head);
      var dropped := Square(p, x, lx, b, j, i, head - p.area);
      RunningMoves(p, f, accum, head, accum + square - dropped);
      accum := accum + square - dropped;
      var scaled := s.k + accum * s.alphaOverArea;
      ScaleIs(p, s, View(x, lx), Cell(b, head - p.pad, j, i), accum);
      ghost var was := done;
      if head - p.pad >= 0 {
        done := EmitForward(p, s, x, lx, scale, ls, top, lt, Cell(b, head - p.pad, j, i), scaled, value, done, scale0,
                            top0);
      }
      ColumnStep(p, before, was, done, b, j, i, head - p.pad);
      head := head + 1;
    }
    while head < p.channels + p.pad
      invariant p.area <= head && p.channels <= head && Running(p, f, accum, head)
      invariant ForwardSoFar(p, s, View(x, lx), value, scale[..], scale0, ls, top[..], top0, lt, done)
      invariant ColumnDone(p, before, done, b, j, i, head - p.pad)
    {
      var dropped := Square(p, x, lx, b, j, i, head - p.area);
      RunningMoves(p, f, accum, head, accum - dropped);
      accum := accum - dropped;
      var scaled := s.k + accum * s.alphaOverArea;
      ScaleIs(p, s, View(x, lx), Cell(b, head - p.pad, j, i), accum);
      ghost var was := done;
      if head - p.pad >= 0 && head - p.pad < p.channels {
        done := EmitForward(p, s, x, lx, scale, ls, top, lt, Cell(b, head - p.pad, j, i), scaled, value, done, scale0,
                            top0);
      }
      ColumnStep(p, before, was, done, b, j, i, head - p.pad);
      head := head + 1;
    }
    ColumnEnds(p, before, done, b, j, i, head - p.pad);
  }

  /** One pixel's column: add only, add and write, add and subtract, subtract only. */
  method ForwardColumn(p: Lrn, s: Scaling, x: seq<real>, lx: Layout, scale: array<real>, ls: Layout, top: array<real>,
                       lt: Layout, b: nat, j: nat, i: nat, ghost before: set<Cell>, ghost scale0: seq<real>,
                       ghost top0: seq<real>)
    returns (ghost done: set<Cell>)
    requires p.Sufficient() && b < p.batches && j < p.height && i < p.width && scale != top
    requires Room(p.Cells(), lx, |x|) && Roomy(p, ls, scale.Length) && Roomy(p, lt, top.Length)
    requires ForwardSoFar(p, s, View(x, lx), ScaleAcross(p, View(x, lx), s.k, s.alphaOverArea), scale[..], scale0, ls,
                          top[..], top0, lt, before)
    modifies scale, top
    ensures ForwardSoFar(p, s, View(x, lx), ScaleAcross(p, View(x, lx), s.k, s.alphaOverArea), scale[..], scale0, ls,
                         top[..], top0, lt, done)
    ensures ColumnDone(p, before, done, b, j, i, p.channels)
  {
    hide *;
    var accum: real;
    accum, done := ForwardOpening(p, s, x, lx, scale, ls, top, lt, b, j, i, before, scale0, top0);
    done := ForwardClosing(p, s, x, lx, scale, ls, top, lt, b, j, i, accum, before, done, scale0, top0);
  }

  /** Cells of pixels before `(b, j, i)`. */
  ghost predicate PixelsDone(p: Lrn, done: set<Cell>, b: int, j: int, i: int) {
    forall u :: u in done <==> u in p.Cells() && (u.n < b || (u.n == b && (u.y < j || (u.y == j && u.x < i))))
  }

  lemma PixelDone(p: Lrn, before: set<Cell>, done: set<Cell>, b: int, j: int, i: int)
    requires PixelsDone(p, before, b, j, i) && ColumnDone(p, before, done, b, j, i, p.channels)
    ensures PixelsDone(p, done, b, j, i + 1)
  {
  }

  /** All pixels, or nothing at all when the area is too small for its padding. */
  method ForwardAcross(p: Lrn, s: Scaling, x: seq<real>, lx: Layout, scale: array<real>, ls: Layout, top: array<real>,
                       lt: Layout)
    returns (ok: bool)
    requires scale != top && Room(p.Cells(), lx, |x|) && Roomy(p, ls, scale.Length) && Roomy(p, lt, top.Length)
    modifies scale, top
    ensures ok <==> p.Sufficient()
    ensures !ok ==> scale[..] == old(scale[..]) && top[..] == old(top[..])
    ensures ok ==>
              ForwardSoFar(p, s, View(x, lx), ScaleAcross(p, View(x, lx), s.k, s.alphaOverArea), scale[..],
                           old(scale[..]), ls, top[..], old(top[..]), lt, p.Cells())
  {
    hide Layout.At, Roomy, Room, View, ForwardSoFar, ScaleAcross;
    if p.area < 1 + p.pad { return false; }
    ghost var value := ScaleAcross(p, View(x, lx), s.k, s.alphaOverArea);
    ghost var done: set<Cell> := {};
    NothingForward(p, s, View(x, lx), value, scale[..], ls, top[..], lt);
    for b := 0 to p.batches
      invariant ForwardSoFar(p, s, View(x, lx), value, scale[..], old(scale[..]), ls, top[..], old(top[..]), lt, done)
      invariant PixelsDone(p, done, b, 0, 0)
    {
      for j := 0 to p.height
        invariant ForwardSoFar(p, s, View(x, lx), value, scale[..], old(scale[..]), ls, top[..], old(top[..]), lt, done)
        invariant PixelsDone(p, done, b, j, 0)
      {
        for i := 0 to p.width
          invariant ForwardSoFar(p, s, View(x, lx), value, scale[..], old(scale[..]), ls, top[..], old(top[..]), lt,
                                 done) && PixelsDone(p, done, b, j, i)
        {
          ghost var before := done;
          done := ForwardColumn(p, s, x, lx, scale, ls, top, lt, b, j, i, before, old(scale[..]), old(top[..]));
          PixelDone(p, before, done, b, j, i);
        }
      }
    }
    assert done == p.Cells();
    return true;
  }

  // ---- Backward ----

  /** What the backward pass reads: input, output, output gradient and scale. */
  datatype Sources = Sources(x: seq<real>, lx: Layout, y: seq<real>, ly: Layout, dy: seq<real>, ldy: Layout,
                             scale: seq<real>, ls: Layout, alpha: real, beta: real, power: real -> real) {
    /** What the window sum is weighted with. */
    function Factor(p: Lrn): real
      requires p.Sufficient()
    {
      2.0 * alpha * beta / p.area as real
    }

    ghost predicate Readable(p: Lrn) {
      && Room(p.Cells(), lx, |x|) && Room(p.Cells(), ly, |y|) && Room(p.Cells(), ldy, |dy|)
         && Room(p.Cells(), ls, |scale|)
      && forall u :: u in p.Cells() ==> View(scale, ls)(u) != 0.0
    }

    function Terms(u: Cell): int -> real { Ratios(View(y, ly), View(dy, ldy), View(scale, ls), u) }

    ghost function Gradient(p: Lrn): Tensor
      requires p.Sufficient()
    {
      GradientAcross(p, View(x, lx), View(y, ly), View(dy, ldy), View(scale, ls), Factor(p), power)
    }
  }

  /** The ratio of one channel, or nothing outside the channels. */
  method Ratio(p: Lrn, s: Sources, b: nat, j: nat, i: nat, c: int) returns (ratio: real)
    requires b < p.batches && j < p.height && i < p.width && s.Readable(p)
    ensures ratio == if 0 <= c < p.channels then s.Terms(Cell(b, 0, j, i))(c) else 0.0
  {
    hide Layout.At, View;
    ratio := 0.0;
    if 0 <= c < p.channels {
      var u := Cell(b, c, j, i);
      assert u in p.Cells();
      ratio := Read(s.dy, s.ldy, u) * Read(s.y, s.ly, u) / Read(s.scale, s.ls, u);
    }
  }

  method EmitBackward(p: Lrn, s: Sources, bot: array<real>, lb: Layout, b: nat, j: nat, i: nat, c: nat, accum: real,
                      ghost done: set<Cell>, ghost bot0: seq<real>)
    returns (ghost next: set<Cell>)
    requires p.Sufficient() && Cell(b, c, j, i) in p.Cells() && s.Readable(p) && Roomy(p, lb, bot.Length)
    requires Running(p, s.Terms(Cell(b, 0, j, i)), accum, c + p.PrePad() + 1)
    requires done <= p.Cells() && Filled(bot[..], bot0, lb, done, s.Gradient(p))
    modifies bot
    ensures next == done + {Cell(b, c, j, i)} && Filled(bot[..], bot0, lb, next, s.Gradient(p))
  {
    hide Layout.At, Apart, Filled, View, SumOver, Sources.Terms, Sources.Gradient, Sources.Factor;
    var u := Cell(b, c, j, i);
    var value := Read(s.dy, s.ldy, u) * s.power(Read(s.scale, s.ls, u)) - s.Factor(p) * Read(s.x, s.lx, u) * accum;
    GradientIs(p, s, u, accum, value);
    ghost var data := bot[..];
    bot[lb.At(u)] := value;
    FillStep(data, bot0, lb, p.Cells(), done, s.Gradient(p), u, bot[..]);
    next := done + {u};
  }

  lemma GradientIs(p: Lrn, s: Sources, u: Cell, accum: real, value: real)
    requires p.Sufficient() && Running(p, s.Terms(Cell(u.n, 0, u.y, u.x)), accum, u.c + p.PrePad() + 1)
    requires value == View(s.dy, s.ldy)(u) * s.power(View(s.scale, s.ls)(u)) - s.Factor(p) * View(s.x, s.lx)(u) * accum
    ensures value == s.Gradient(p)(u)
  {
    hide View, SumOver, Sources.Factor;
    TermsSame(p, s, u);
  }

  lemma TermsSame(p: Lrn, s: Sources, u: Cell)
    requires p.Sufficient()
    ensures SumOver(Window(p.channels, u.c, p.pad, p.PrePad()), s.Terms(u))
         == SumOver(Window(p.channels, u.c, p.pad, p.PrePad()), s.Terms(Cell(u.n, 0, u.y, u.x)))
  {
    SumSame(Window(p.channels, u.c, p.pad, p.PrePad()), s.Terms(u), s.Terms(Cell(u.n, 0, u.y, u.x)));
  }

  /** The first two phases, with the padding on the other side. */
  method BackwardOpening(p: Lrn, s: Sources, bot: array<real>, lb: Layout, b: nat, j: nat, i: nat,
                         ghost before: set<Cell>, ghost bot0: seq<real>)
    returns (accum: real, ghost done: set<Cell>)
    requires p.Sufficient() && b < p.batches && j < p.height && i < p.width && s.Readable(p) && Roomy(p, lb, bot.Length)
    requires before <= p.Cells() && Filled(bot[..], bot0, lb, before, s.Gradient(p))
    modifies bot
    ensures done <= p.Cells() && Filled(bot[..], bot0, lb, done, s.Gradient(p))
    ensures ColumnDone(p, before, done, b, j, i, p.area - p.PrePad())
    ensures Running(p, s.Terms(Cell(b, 0, j, i)), accum, p.area)
  {
    hide Layout.At, Roomy, Filled, View, Sources.Terms, Sources.Gradient, Sources.Readable, SumOver, Running;
    hide ColumnDone;
    ghost var f := s.Terms(Cell(b, 0, j, i));
    var prePad := p.area - 1 - p.pad;
    var head := 0;
    accum := 0.0;
    RunningStarts(p, f);
    done := before;
    while head < prePad
      invariant 0 <= head <= prePad && Running(p, f, accum, head)
      invariant done <= p.Cells() && Filled(bot[..], bot0, lb, done, s.Gradient(p))
    {
      var ratio := Ratio(p, s, b, j, i, head);
      RunningMoves(p, f, accum, head, accum + ratio);
      if head < p.channels { accum := accum + ratio; }
      head := head + 1;
    }
    ColumnBegins(p, before, b, j, i);
    while head < p.area
      invariant prePad <= head <= p.area && Running(p, f, accum, head)
      invariant done <= p.Cells() && Filled(bot[..], bot0, lb, done, s.Gradient(p))
      invariant ColumnDone(p, before, done, b, j, i, head - prePad)
    {
      var ratio := Ratio(p, s, b, j, i, head);
      RunningMoves(p, f, accum, head, accum + ratio);
      if head < p.channels { accum := accum + ratio; }
      ghost var was := done;
      if head - prePad >= 0 && head - prePad < p.channels {
        done := EmitBackward(p, s, bot, lb, b, j, i, head - prePad, accum, done, bot0);
      }
      ColumnStep(p, before, was, done, b, j, i, head - prePad);
      head := head + 1;
    }
  }

  /** The last two phases. */
  method BackwardClosing(p: Lrn, s: Sources, bot: array<real>, lb: Layout, b: nat, j: nat, i: nat, accumSoFar: real,
                         ghost before: set<Cell>, ghost doneSoFar: set<Cell>, ghost bot0: seq<real>)
    returns (ghost done: set<Cell>)
    requires p.Sufficient() && b < p.batches && j < p.height && i < p.width && s.Readable(p) && Roomy(p, lb, bot.Length)
    requires doneSoFar <= p.Cells() && Filled(bot[..], bot0, lb, doneSoFar, s.Gradient(p))
    requires ColumnDone(p, before, doneSoFar, b, j, i, p.area - p.PrePad())
    requires Running(p, s.Terms(Cell(b, 0, j, i)), accumSoFar, p.area)
    modifies bot
    ensures done <= p.Cells() && Filled(bot[..], bot0, lb, done, s.Gradient(p))
    ensures ColumnDone(p, before, done, b, j, i, p.channels)
  {
    hide Layout.At, Roomy, Filled, View, Sources.Terms, Sources.Gradient, Sources.Readable, SumOver, Running;
    hide ColumnDone;
    ghost var f := s.Terms(Cell(b, 0, j, i));
    var prePad := p.area - 1 - p.pad;
    var accum, head := accumSoFar, p.area;
    done := doneSoFar;
    while head < p.channels
      invariant p.area <= head && Running(p, f, accum, head)
      invariant done <= p.Cells() && Filled(bot[..], bot0, lb, done, s.Gradient(p))
      invariant ColumnDone(p, before, done, b, j, i, head - prePad)
    {
      var ratio := Ratio(p, s, b, j, i, head);
      var dropped := Ratio(p, s, b, j, i, head - p.area);
      RunningMoves(p, f, accum, head, accum + ratio - dropped);
      accum := accum + ratio;
      if head - p.area >= 0 { accum := accum - dropped; }
      ghost var was := done;
      if head - prePad >= 0 {
        done := EmitBackward(p, s, bot, lb, b, j, i, head - prePad, accum, done, bot0);
      }
      ColumnStep(p, before, was, done, b, j, i, head - prePad);
      head := head + 1;
    }
    while head < p.channels + prePad
      invariant p.area <= head && p.channels <= head && Running(p, f, accum, head)
      invariant done <= p.Cells() && Filled(bot[..], bot0, lb, done, s.Gradient(p))
      invariant ColumnDone(p, before, done, b, j, i, head - prePad)
    {
      var dropped := Ratio(p, s, b, j, i, head - p.area);
      RunningMoves(p, f, accum, head, accum - dropped);
      if head - p.area >= 0 && head - p.area < p.channels { accum := accum - dropped; }
      ghost var was := done;
      if head - prePad >= 0 && head - prePad < p.channels {
        done := EmitBackward(p, s, bot, lb, b, j, i, head - prePad, accum, done, bot0);
      }
      ColumnStep(p, before, was, done, b, j, i, head - prePad);
      head := head + 1;
    }
    ColumnEnds(p, before, done, b, j, i, head - prePad);
  }

  /** One pixel's column, with the padding on the other side. */
  method BackwardColumn(p: Lrn, s: Sources, bot: array<real>, lb: Layout, b: nat, j: nat, i: nat,
                        ghost before: set<Cell>, ghost bot0: seq<real>)
    returns (ghost done: set<Cell>)
    requires p.Sufficient() && b < p.batches && j < p.height && i < p.width && s.Readable(p) && Roomy(p, lb, bot.Length)
    requires before <= p.Cells() && Filled(bot[..], bot0, lb, before, s.Gradient(p))
    modifies bot
    ensures done <= p.Cells() && Filled(bot[..], bot0, lb, done, s.Gradient(p))
    ensures ColumnDone(p, before, done, b, j, i, p.channels)
  {
    hide *;
    var accum: real;
    accum, done := BackwardOpening(p, s, bot, lb, b, j, i, before, bot0);
    done := BackwardClosing(p, s, bot, lb, b, j, i, accum, before, done, bot0);
  }

  method BackwardAcross(p: Lrn, s: Sources, bot: array<real>, lb: Layout) returns (ok: bool)
    requires s.Readable(p) && Roomy(p, lb, bot.Length)
    modifies bot
    ensures ok <==> p.Sufficient()
    ensures !ok ==> bot[..] == old(bot[..])
    ensures ok ==> Filled(bot[..], old(bot[..]), lb, p.Cells(), s.Gradient(p))
  {
    hide Layout.At, Roomy, View, Filled, Sources.Gradient, Sources.Readable;
    var prePad := p.area - 1 - p.pad;
    if prePad < 0 { return false; }
    ghost var done: set<Cell> := {};
    FillStart(bot[..], lb, s.Gradient(p));
    for b := 0 to p.batches
      invariant done <= p.Cells() && Filled(bot[..], old(bot[..]), lb, done, s.Gradient(p))
      invariant PixelsDone(p, done, b, 0, 0)
    {
      for j := 0 to p.height
        invariant done <= p.Cells() && Filled(bot[..], old(bot[..]), lb, done, s.Gradient(p))
        invariant PixelsDone(p, done, b, j, 0)
      {
        for i := 0 to p.width
          invariant done <= p.Cells() && Filled(bot[..], old(bot[..]), lb, done, s.Gradient(p))
          invariant PixelsDone(p, done, b, j, i)
        {
          ghost var before := done;
          done := BackwardColumn(p, s, bot, lb, b, j, i, before, old(bot[..]));
          PixelDone(p, before, done, b, j, i);
        }
      }
    }
    assert done == p.Cells();
    return true;
  }
}
