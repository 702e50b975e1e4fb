/** Each backward pass is the gradient of its forward pass, whatever the windows are. */
module LrnGradient {
  import opened Sums
  import opened Tensors
  import opened LrnWindow
  import opened LrnAcross
  import opened LrnWithin

  // ---- The arithmetic of one place ----

  function Scaled(k: real, sum: real, a: real): real { k + sum * a }

  function Quotient(dy: real, y: real, scale: real): real { if scale == 0.0 then 0.0 else dy * y / scale }

  function Backward(own: real, beta: real, a: real, x: real, sum: real): real { own - 2.0 * beta * a * x * sum }

  // ---- Any windows ----

  /**
   A forward pass over places: each is scaled by `k` plus `a` times the squares in its window, raised by `power`;
   `slope` is the derivative of `power`, and `back` holds the places whose windows a place is in.
   */
  datatype Local<!T(!new)> = Local(all: set<T>, x: T -> real, k: real, a: real, beta: real, power: real -> real,
                                   slope: real -> real, window: T -> set<T>, back: T -> set<T>) {
    ghost predicate Transposed() {
      && (forall o :: o in all ==> window(o) <= all && back(o) <= all)
      && forall o, c :: o in all && c in all ==> (c in window(o) <==> o in back(c))
    }

    ghost function Scale(o: T): real { Scaled(k, SumOver(window(o), Squared(x)), a) }

    ghost function Output(o: T): real { Weighted(x(o), power(Scale(o))) }

    /** The derivative of a scale by an input of its window. */
    function ScaleSlope(c: T): real { 2.0 * x(c) * a }

    /** The derivative of an output by its own scale. */
    ghost function OutputSlope(o: T): real { x(o) * slope(Scale(o)) }

    /** The derivative of output `o` by input `c`: product rule, chain rule, and the slope of the scale. */
    ghost function Derivative(o: T, c: T): real {
      (if o == c then power(Scale(o)) else 0.0)
      + if c in window(o) then Weighted(OutputSlope(o), ScaleSlope(c)) else 0.0
    }

    /** What raises a scale to minus beta has minus beta times its value over the scale as its derivative. */
    ghost predicate Raises() {
      forall o :: o in all ==> Scale(o) != 0.0 && slope(Scale(o)) == -beta * power(Scale(o)) / Scale(o)
    }

    ghost function Pulled(dy: T -> real, c: T): T -> real { (o: T) => Weighted(dy(o), Derivative(o, c)) }

    ghost function Own(dy: T -> real, c: T): T -> real {
      (o: T) => if o == c then Weighted(dy(c), power(Scale(c))) else 0.0
    }

    /** What the window sum of input `c` is weighted with. */
    function Factor(c: T): real { -(2.0 * beta * a * x(c)) }

    ghost function Terms(dy: T -> real): T -> real { (o: T) => Quotient(dy(o), Output(o), Scale(o)) }

    ghost function Through(dy: T -> real, c: T): T -> real {
      (o: T) => if o in back(c) then Weighted(Terms(dy)(o), Factor(c)) else 0.0
    }
  }

  function Squared<T>(x: T -> real): T -> real { (c: T) => x(c) * x(c) }

  // ---- The scale moves with one place of its window ----

  function Moved<T(==)>(x: T -> real, c: T, h: real): T -> real { (v: T) => if v == c then x(v) + h else x(v) }

  /** What a square gains when its side moves by `h`. */
  function Gain(v: real, h: real): real { 2.0 * v * h + h * h }

  lemma SquareMoves(v: real, h: real)
    ensures (v + h) * (v + h) == v * v + Gain(v, h)
  {
  }

  lemma Difference(k: real, sum: real, moved: real, d: real, a: real)
    requires moved == sum + d
    ensures Scaled(k, moved, a) - Scaled(k, sum, a) == Weighted(d, a) && Weighted(0.0, a) == 0.0
  {
  }

  lemma GainIs(x: real, h: real, a: real)
    ensures Weighted(Gain(x, h), a) == 2.0 * x * a * h + h * h * a == (2.0 * x * h + h * h) * a
  {
  }

  /** Moving one place by `h` moves a scale by its slope times `h`, and the square term, if it is in the window. */
  lemma ScaleMoves<T(!new)>(q: Local<T>, o: T, c: T, h: real)
    ensures q.(x := Moved(q.x, c, h)).Scale(o) - q.Scale(o)
         == if c in q.window(o) then q.ScaleSlope(c) * h + h * h * q.a else 0.0
  {
    hide Scaled, SumOver, Moved, Squared, Gain, Weighted;
    var sum, moved := SumOver(q.window(o), Squared(q.x)), SumOver(q.window(o), Squared(Moved(q.x, c, h)));
    assert q.Scale(o) == Scaled(q.k, sum, q.a) && q.(x := Moved(q.x, c, h)).Scale(o) == Scaled(q.k, moved, q.a);
    SumMoves(q.window(o), q.x, c, h);
    GainIs(q.x(c), h, q.a);
    Difference(q.k, sum, moved, moved - sum, q.a);
  }

  lemma SumMoves<T(!new)>(window: set<T>, x: T -> real, c: T, h: real)
    ensures SumOver(window, Squared(Moved(x, c, h)))
         == SumOver(window, Squared(x)) + if c in window then Gain(x(c), h) else 0.0
  {
    var f, g := Squared(x), Squared(Moved(x, c, h));
    forall v: T ensures g(v) == f(v) + if v == c then Gain(x(c), h) else 0.0 { SquareMoves(x(c), h); }
    hide Squared, Moved, SumOver, Gain;
    if c in window { SumBump(window, c, f, g, Gain(x(c), h)); } else { SumSame(window, f, g); }
  }

  // ---- The vector-Jacobian product ----

  lemma SlopeTerm(dy: real, x: real, power: real, scale: real, slope: real, beta: real, a: real, xc: real,
                  outputSlope: real, scaleSlope: real, term: real, factor: real)
    requires scale != 0.0 && slope == -beta * power / scale
    requires outputSlope == x * slope && scaleSlope == 2.0 * xc * a
    requires term == dy * (x * power) / scale && factor == -(2.0 * beta * a * xc)
    ensures Weighted(dy, Weighted(outputSlope, scaleSlope)) == Weighted(term, factor)
  {
    var r := power / scale;
    assert slope == -beta * r && term == dy * x * r;
    Reordered(dy, x, r, beta, a, xc);
  }

  lemma Reordered(dy: real, x: real, r: real, beta: real, a: real, xc: real)
    ensures dy * (x * (-beta * r) * (2.0 * xc * a)) == dy * x * r * -(2.0 * beta * a * xc)
  {
  }

  lemma TermAt<T(!new)>(q: Local<T>, dy: T -> real, o: T)
    requires q.Scale(o) != 0.0
    ensures q.Terms(dy)(o) == dy(o) * (q.x(o) * q.power(q.Scale(o))) / q.Scale(o)
  {
    hide Local.Scale;
  }

  /** What comes through the scale of output `o`. */
  lemma ThroughScale<T(!new)>(q: Local<T>, dy: T -> real, c: T, o: T)
    requires q.Raises() && o in q.all
    ensures Weighted(dy(o), Weighted(q.OutputSlope(o), q.ScaleSlope(c))) == Weighted(q.Terms(dy)(o), q.Factor(c))
  {
    hide Local.Scale, Local.Terms, Weighted;
    var scale := q.Scale(o);
    TermAt(q, dy, o);
    SlopeTerm(dy(o), q.x(o), q.power(scale), scale, q.slope(scale), q.beta, q.a, q.x(c), q.OutputSlope(o),
              q.ScaleSlope(c), q.Terms(dy)(o), q.Factor(c));
  }

  lemma WeightedAdds(dy: real, a: real, b: real)
    ensures Weighted(dy, a + b) == Weighted(dy, a) + Weighted(dy, b) && Weighted(dy, 0.0) == 0.0
  {
  }

  /** Each output pulls back its own part and its part through the scale, the latter from the transposed window. */
  lemma PulledSplits<T(!new)>(q: Local<T>, dy: T -> real, c: T, o: T)
    requires q.Transposed() && q.Raises() && o in q.all && c in q.all
    ensures q.Pulled(dy, c)(o) == q.Own(dy, c)(o) + q.Through(dy, c)(o)
  {
    hide Local.Scale, Local.Terms, Local.Factor, Local.ScaleSlope, Local.OutputSlope, Weighted;
    ThroughScale(q, dy, c, o);
    WeightedAdds(dy(o), if o == c then q.power(q.Scale(o)) else 0.0,
                 if o in q.back(c) then Weighted(q.OutputSlope(o), q.ScaleSlope(c)) else 0.0);
  }

  /** The output gradient times all derivatives by one input, as one sum over the places whose windows it is in. */
  lemma PullBack<T(!new)>(q: Local<T>, dy: T -> real, c: T)
    requires q.Transposed() && q.Raises() && c in q.all
    ensures SumOver(q.all, q.Pulled(dy, c))
         == Backward(Weighted(dy(c), q.power(q.Scale(c))), q.beta, q.a, q.x(c), SumOver(q.back(c), q.Terms(dy)))
  {
    hide SumOver, Local.Pulled, Local.Through, Local.Factor, Local.Terms, Local.Scale, Local.Raises;
    forall o | o in q.all ensures q.Pulled(dy, c)(o) == q.Own(dy, c)(o) + q.Through(dy, c)(o) {
      PulledSplits(q, dy, c, o);
    }
    SumAdds(q.all, q.Own(dy, c), q.Through(dy, c), q.Pulled(dy, c));
    SumSingle(q.all, c, q.Own(dy, c));
    ThroughBack(q, dy, c);
  }

  lemma ThroughBack<T(!new)>(q: Local<T>, dy: T -> real, c: T)
    requires q.Transposed() && c in q.all
    ensures SumOver(q.all, q.Through(dy, c)) == -(2.0 * q.beta * q.a * q.x(c) * SumOver(q.back(c), q.Terms(dy)))
  {
    hide SumOver, Local.Terms, Weighted;
    SumPart(q.all, q.back(c), q.Through(dy, c));
    SumProduct(q.back(c), q.Terms(dy), q.Through(dy, c), q.Factor(c));
    Minus(2.0 * q.beta * q.a * q.x(c), SumOver(q.back(c), q.Terms(dy)), q.Factor(c));
  }

  lemma Minus(a: real, b: real, factor: real)
    requires factor == -a
    ensures Weighted(b, factor) == -(a * b)
  {
  }

  /** The source's one factor in front of the window sum is twice beta times what scales the window. */
  lemma OneFactor(own: real, alpha: real, beta: real, area: real, x: real, sum: real)
    requires area != 0.0
    ensures own - 2.0 * alpha * beta / area * x * sum == Backward(own, beta, alpha / area, x, sum)
  {
    assert 2.0 * alpha * beta / area == 2.0 * beta * (alpha / area);
  }

  // ---- Across channels ----

  function PerChannel(p: Lrn, alpha: real): real
    requires p.Sufficient()
  {
    alpha / p.area as real
  }

  /** The channels of one pixel. */
  ghost function Channels(p: Lrn, x: Tensor, k: real, alpha: real, beta: real, power: real -> real,
                          slope: real -> real, u: Cell): Local<int>
    requires p.Sufficient()
  {
    Local(Upto(p.channels), (c: int) => x(Cell(u.n, c, u.y, u.x)), k, PerChannel(p, alpha), beta, power, slope,
          (c: int) => Window(p.channels, c, p.PrePad(), p.pad), (c: int) => Window(p.channels, c, p.pad, p.PrePad()))
  }

  lemma ChannelsTransposed(p: Lrn, x: Tensor, k: real, alpha: real, beta: real, power: real -> real,
                           slope: real -> real, u: Cell)
    requires p.Sufficient()
    ensures Channels(p, x, k, alpha, beta, power, slope, u).Transposed()
  {
  }

  lemma ChannelScale(p: Lrn, x: Tensor, k: real, alpha: real, beta: real, power: real -> real, slope: real -> real,
                     u: Cell, c: int)
    requires p.Sufficient()
    ensures Channels(p, x, k, alpha, beta, power, slope, u).Scale(c)
            == ScaleAcross(p, x, k, PerChannel(p, alpha))(Cell(u.n, c, u.y, u.x))
  {
    hide PerChannel, SumOver, Window;
    var q, v := Channels(p, x, k, alpha, beta, power, slope, u), Cell(u.n, c, u.y, u.x);
    SumSame(Window(p.channels, c, p.PrePad(), p.pad), Squared(q.x), Squares(x, v));
  }

  /** Moving one channel of the pixel of `u` moves its scale if and only if the channel is in its window. */
  lemma AcrossMoves(p: Lrn, x: Tensor, k: real, a: real, u: Cell, c: int, h: real)
    requires p.Sufficient()
    ensures ScaleAcross(p, Moved(x, Cell(u.n, c, u.y, u.x), h), k, a)(u) - ScaleAcross(p, x, k, a)(u)
         == if c in Window(p.channels, u.c, p.PrePad(), p.pad)
            then (2.0 * x(Cell(u.n, c, u.y, u.x)) * h + h * h) * a else 0.0
  {
    hide SumOver, Window, Scaled, ScaleAcross, Squares, Gain, Weighted, Moved;
    var window, v := Window(p.channels, u.c, p.PrePad(), p.pad), Cell(u.n, c, u.y, u.x);
    var sum, moved := SumOver(window, Squares(x, u)), SumOver(window, Squares(Moved(x, v, h), u));
    ChannelsMove(window, x, u, c, h);
    AcrossAt(p, x, k, a, u);
    AcrossAt(p, Moved(x, v, h), k, a, u);
    GainIs(x(v), h, a);
    Difference(k, sum, moved, moved - sum, a);
  }

  lemma ChannelsMove(window: set<int>, x: Tensor, u: Cell, c: int, h: real)
    ensures SumOver(window, Squares(Moved(x, Cell(u.n, c, u.y, u.x), h), u))
         == SumOver(window, Squares(x, u)) + if c in window then Gain(x(Cell(u.n, c, u.y, u.x)), h) else 0.0
  {
    hide SumOver, Gain;
    var row := (o: int) => x(Cell(u.n, o, u.y, u.x));
    SumSame(window, Squared(row), Squares(x, u));
    SumSame(window, Squared(Moved(row, c, h)), Squares(Moved(x, Cell(u.n, c, u.y, u.x), h), u));
    hide Squares, Squared, Moved;
    SumMoves(window, row, c, h);
  }

  lemma AcrossAt(p: Lrn, x: Tensor, k: real, a: real, u: Cell)
    requires p.Sufficient()
    ensures ScaleAcross(p, x, k, a)(u)
            == Scaled(k, SumOver(Window(p.channels, u.c, p.PrePad(), p.pad), Squares(x, u)), a)
  {
    hide SumOver, Window, Squares;
  }

  /** What the forward pass across channels leaves in memory for the backward pass. */
  ghost predicate FollowsAcross(p: Lrn, s: Sources, k: real)
    requires p.Sufficient()
  {
    var x := View(s.x, s.lx);
    var scale := ScaleAcross(p, x, k, s.alpha / p.area as real);
    forall u :: u in p.Cells() ==>
      View(s.scale, s.ls)(u) == scale(u) && View(s.y, s.ly)(u) == Normalised(x, scale, s.power)(u)
  }

  lemma FollowsAt(p: Lrn, s: Sources, k: real, u: Cell)
    requires p.Sufficient() && FollowsAcross(p, s, k) && u in p.Cells()
    ensures var scale := ScaleAcross(p, View(s.x, s.lx), k, PerChannel(p, s.alpha))(u);
            View(s.scale, s.ls)(u) == scale && View(s.y, s.ly)(u) == Weighted(View(s.x, s.lx)(u), s.power(scale))
  {
    hide View, SumOver;
  }

  lemma RatiosAt(s: Sources, u: Cell, c: int)
    ensures var v := Cell(u.n, c, u.y, u.x);
            s.Terms(u)(c) == Quotient(View(s.dy, s.ldy)(v), View(s.y, s.ly)(v), View(s.scale, s.ls)(v))
  {
    hide View;
  }

  lemma ChannelTerm(p: Lrn, s: Sources, k: real, slope: real -> real, u: Cell, dy: int -> real, c: int)
    requires p.Sufficient() && u in p.Cells() && 0 <= c < p.channels && FollowsAcross(p, s, k)
    requires dy(c) == View(s.dy, s.ldy)(Cell(u.n, c, u.y, u.x))
    ensures Channels(p, View(s.x, s.lx), k, s.alpha, s.beta, s.power, slope, u).Terms(dy)(c) == s.Terms(u)(c)
  {
    var v := Cell(u.n, c, u.y, u.x);
    assert v in p.Cells();
    hide FollowsAcross, View, Local.Scale, ScaleAcross, Sources.Terms, Quotient, Weighted, PerChannel;
    ChannelScale(p, View(s.x, s.lx), k, s.alpha, s.beta, s.power, slope, u, c);
    FollowsAt(p, s, k, v);
    RatiosAt(s, u, c);
  }

  lemma GradientIs(p: Lrn, s: Sources, u: Cell)
    requires p.Sufficient()
    ensures s.Gradient(p)(u)
         == Backward(Weighted(View(s.dy, s.ldy)(u), s.power(View(s.scale, s.ls)(u))), s.beta, PerChannel(p, s.alpha),
                     View(s.x, s.lx)(u), SumOver(Window(p.channels, u.c, p.pad, p.PrePad()), s.Terms(u)))
  {
    hide View, SumOver, Window, Backward, Ratios;
    OneFactor(View(s.dy, s.ldy)(u) * s.power(View(s.scale, s.ls)(u)), s.alpha, s.beta, p.area as real,
              View(s.x, s.lx)(u), SumOver(Window(p.channels, u.c, p.pad, p.PrePad()), s.Terms(u)));
  }

  /** Behind its forward pass, the backward pass across channels writes the output gradient times the derivatives. */
  lemma AcrossIsGradient(p: Lrn, s: Sources, k: real, slope: real -> real, u: Cell)
    requires p.Sufficient() && u in p.Cells() && FollowsAcross(p, s, k)
    requires Channels(p, View(s.x, s.lx), k, s.alpha, s.beta, s.power, slope, u).Raises()
    ensures s.Gradient(p)(u)
         == SumOver(Upto(p.channels), Channels(p, View(s.x, s.lx), k, s.alpha, s.beta, s.power, slope, u)
                                      .Pulled((c: int) => View(s.dy, s.ldy)(Cell(u.n, c, u.y, u.x)), u.c))
  {
    hide FollowsAcross, SumOver, View, Local.Scale, Local.Pulled, Local.Raises, Local.Terms, ScaleAcross;
    hide Sources.Terms, Sources.Gradient, Backward, Weighted, PerChannel, Local.Transposed, Window;
    var dy := (c: int) => View(s.dy, s.ldy)(Cell(u.n, c, u.y, u.x));
    var q := Channels(p, View(s.x, s.lx), k, s.alpha, s.beta, s.power, slope, u);
    ChannelsTransposed(p, View(s.x, s.lx), k, s.alpha, s.beta, s.power, slope, u);
    var back := Window(p.channels, u.c, p.pad, p.PrePad());
    forall c | c in back ensures q.Terms(dy)(c) == s.Terms(u)(c) {
      InWindow(p, u.c, c);
      ChannelTerm(p, s, k, slope, u, dy, c);
    }
    SumSame(back, q.Terms(dy), s.Terms(u));
    ChannelScale(p, View(s.x, s.lx), k, s.alpha, s.beta, s.power, slope, u, u.c);
    FollowsAt(p, s, k, u);
    PullBack(q, dy, u.c);
    GradientIs(p, s, u);
  }

  lemma InWindow(p: Lrn, o: int, c: int)
    requires p.Sufficient() && c in Window(p.channels, o, p.pad, p.PrePad())
    ensures 0 <= c < p.channels
  {
  }

  // ---- Within a channel ----

  function PerSquare(p: Lrn, alpha: real): real
    requires p.Sufficient()
  {
    AreaPositive(p);
    alpha / (p.area * p.area) as real
  }

  ghost function Pixels(p: Lrn, x: Tensor, k: real, alpha: real, beta: real, power: real -> real,
                        slope: real -> real): Local<Cell>
    requires p.Sufficient()
  {
    Local(p.Cells(), x, k, PerSquare(p, alpha), beta, power, slope,
          (u: Cell) => LrnWithin.Square(p, u, p.PrePad(), p.pad),
          (u: Cell) => LrnWithin.Square(p, u, p.pad, p.PrePad()))
  }

  lemma PixelsTransposed(p: Lrn, x: Tensor, k: real, alpha: real, beta: real, power: real -> real,
                         slope: real -> real)
    requires p.Sufficient()
    ensures Pixels(p, x, k, alpha, beta, power, slope).Transposed()
  {
    hide PerSquare;
  }

  lemma WithinIs(p: Lrn, x: Tensor, k: real, alpha: real, u: Cell)
    requires p.Sufficient()
    ensures ScaleWithin(p, x, k, alpha)(u)
            == Scaled(k, SumOver(LrnWithin.Square(p, u, p.PrePad(), p.pad), SquareAt(x)), PerSquare(p, alpha))
  {
    hide SumOver, LrnWithin.Square, SquareAt;
  }

  lemma PixelScale(p: Lrn, x: Tensor, k: real, alpha: real, beta: real, power: real -> real, slope: real -> real,
                   u: Cell)
    requires p.Sufficient()
    ensures Pixels(p, x, k, alpha, beta, power, slope).Scale(u) == ScaleWithin(p, x, k, alpha)(u)
  {
    hide PerSquare, SumOver, LrnWithin.Square, ScaleWithin, Scaled;
    SumSame(LrnWithin.Square(p, u, p.PrePad(), p.pad), Squared(x), SquareAt(x));
    WithinIs(p, x, k, alpha, u);
  }

  /** Moving one pixel moves the scale of another if and only if it lies in that one's square. */
  lemma WithinMoves(p: Lrn, x: Tensor, k: real, alpha: real, u: Cell, c: Cell, h: real)
    requires p.Sufficient()
    ensures p.area * p.area >= 1
    ensures ScaleWithin(p, Moved(x, c, h), k, alpha)(u) - ScaleWithin(p, x, k, alpha)(u)
         == if c in LrnWithin.Square(p, u, p.PrePad(), p.pad)
            then (2.0 * x(c) * h + h * h) * (alpha / (p.area * p.area) as real) else 0.0
  {
    AreaPositive(p);
    SquareShare(p, alpha);
    GainIs(x(c), h, PerSquare(p, alpha));
    hide *;
    WithinMovesBy(p, x, k, alpha, u, c, h);
  }

  lemma SquareShare(p: Lrn, alpha: real)
    requires p.Sufficient() && p.area * p.area >= 1
    ensures PerSquare(p, alpha) == alpha / (p.area * p.area) as real
  {
  }

  lemma WithinMovesBy(p: Lrn, x: Tensor, k: real, alpha: real, u: Cell, c: Cell, h: real)
    requires p.Sufficient()
    ensures ScaleWithin(p, Moved(x, c, h), k, alpha)(u) - ScaleWithin(p, x, k, alpha)(u)
         == if c in LrnWithin.Square(p, u, p.PrePad(), p.pad) then Weighted(Gain(x(c), h), PerSquare(p, alpha)) else 0.0
  {
    hide SumOver, LrnWithin.Square, Scaled, ScaleWithin, PerSquare, SquareAt, Gain, Weighted, Moved;
    var square := LrnWithin.Square(p, u, p.PrePad(), p.pad);
    var sum, moved := SumOver(square, SquareAt(x)), SumOver(square, SquareAt(Moved(x, c, h)));
    PixelsMove(square, x, c, h);
    WithinIs(p, x, k, alpha, u);
    WithinIs(p, Moved(x, c, h), k, alpha, u);
    Difference(k, sum, moved, moved - sum, PerSquare(p, alpha));
  }

  lemma PixelsMove(square: set<Cell>, x: Tensor, c: Cell, h: real)
    ensures SumOver(square, SquareAt(Moved(x, c, h)))
         == SumOver(square, SquareAt(x)) + if c in square then Gain(x(c), h) else 0.0
  {
    hide SumOver, Gain;
    SumSame(square, Squared(x), SquareAt(x));
    SumSame(square, Squared(Moved(x, c, h)), SquareAt(Moved(x, c, h)));
    hide SquareAt, Squared, Moved;
    SumMoves(square, x, c, h);
  }

  ghost predicate FollowsWithin(p: Lrn, s: Sources, k: real)
    requires p.Sufficient()
  {
    var x := View(s.x, s.lx);
    var scale := ScaleWithin(p, x, k, s.alpha);
    forall u :: u in p.Cells() ==>
      View(s.scale, s.ls)(u) == scale(u) && View(s.y, s.ly)(u) == Normalised(x, scale, s.power)(u)
  }

  lemma FollowsHere(p: Lrn, s: Sources, k: real, u: Cell)
    requires p.Sufficient() && FollowsWithin(p, s, k) && u in p.Cells()
    ensures var scale := ScaleWithin(p, View(s.x, s.lx), k, s.alpha)(u);
            View(s.scale, s.ls)(u) == scale && View(s.y, s.ly)(u) == Weighted(View(s.x, s.lx)(u), s.power(scale))
  {
    hide View, ScaleWithin;
  }

  lemma RatioHere(y: Tensor, dy: Tensor, scale: Tensor, u: Cell)
    ensures RatioAt(y, dy, scale)(u) == Quotient(dy(u), y(u), scale(u))
  {
  }

  lemma PixelTerm(p: Lrn, s: Sources, k: real, slope: real -> real, v: Cell)
    requires p.Sufficient() && v in p.Cells() && FollowsWithin(p, s, k)
    ensures Pixels(p, View(s.x, s.lx), k, s.alpha, s.beta, s.power, slope).Terms(View(s.dy, s.ldy))(v)
         == RatioAt(View(s.y, s.ly), View(s.dy, s.ldy), View(s.scale, s.ls))(v)
  {
    hide FollowsWithin, View, Local.Scale, ScaleWithin, RatioAt, Quotient, Weighted, PerSquare;
    PixelScale(p, View(s.x, s.lx), k, s.alpha, s.beta, s.power, slope, v);
    FollowsHere(p, s, k, v);
    RatioHere(View(s.y, s.ly), View(s.dy, s.ldy), View(s.scale, s.ls), v);
  }

  lemma GradientHere(p: Lrn, s: Sources, u: Cell)
    requires p.Sufficient()
    ensures GradientWithin(p, s)(u)
         == Backward(Weighted(View(s.dy, s.ldy)(u), s.power(View(s.scale, s.ls)(u))), s.beta, PerSquare(p, s.alpha),
                     View(s.x, s.lx)(u), SumOver(LrnWithin.Square(p, u, p.pad, p.PrePad()),
                                                 RatioAt(View(s.y, s.ly), View(s.dy, s.ldy), View(s.scale, s.ls))))
  {
    hide View, SumOver, LrnWithin.Square, Backward, RatioAt;
    AreaPositive(p);
    OneFactor(View(s.dy, s.ldy)(u) * s.power(View(s.scale, s.ls)(u)), s.alpha, s.beta, (p.area * p.area) as real,
              View(s.x, s.lx)(u), SumOver(LrnWithin.Square(p, u, p.pad, p.PrePad()),
                                          RatioAt(View(s.y, s.ly), View(s.dy, s.ldy), View(s.scale, s.ls))));
  }

  /** Behind its forward pass, the backward pass within a channel writes the output gradient times the derivatives. */
  lemma WithinIsGradient(p: Lrn, s: Sources, k: real, slope: real -> real, u: Cell)
    requires p.Sufficient() && u in p.Cells() && FollowsWithin(p, s, k)
    requires Pixels(p, View(s.x, s.lx), k, s.alpha, s.beta, s.power, slope).Raises()
    ensures GradientWithin(p, s)(u)
         == SumOver(p.Cells(), Pixels(p, View(s.x, s.lx), k, s.alpha, s.beta, s.power, slope)
                               .Pulled(View(s.dy, s.ldy), u))
  {
    hide FollowsWithin, SumOver, View, Local.Scale, Local.Pulled, Local.Raises, Local.Terms, ScaleWithin, RatioAt;
    hide GradientWithin, Backward, Weighted, PerSquare, Local.Transposed;
    var dy, ratio := View(s.dy, s.ldy), RatioAt(View(s.y, s.ly), View(s.dy, s.ldy), View(s.scale, s.ls));
    var q := Pixels(p, View(s.x, s.lx), k, s.alpha, s.beta, s.power, slope);
    PixelsTransposed(p, View(s.x, s.lx), k, s.alpha, s.beta, s.power, slope);
    var back := LrnWithin.Square(p, u, p.pad, p.PrePad());
    forall v | v in back ensures q.Terms(dy)(v) == ratio(v) { PixelTerm(p, s, k, slope, v); }
    SumSame(back, q.Terms(dy), ratio);
    PixelScale(p, View(s.x, s.lx), k, s.alpha, s.beta, s.power, slope, u);
    FollowsHere(p, s, k, u);
    PullBack(q, dy, u);
    GradientHere(p, s, u);
  }

  // ---- Even planes ----

  lemma {:induction false} SpanSize(n: nat, lo: nat, hi: nat)
    requires lo <= hi <= n
    ensures |Span(n, lo, hi)| == hi - lo
    decreases hi - lo
  {
    if lo < hi {
      SpanSize(n, lo, hi - 1);
      assert Span(n, lo, hi) == Span(n, lo, hi - 1) + {hi - 1};
    }
  }

  lemma Evened(k: real, value: real, count: real, alpha: real, sum: real, a: real, scale: real)
    requires count != 0.0 && sum == count * value && a == alpha / count && scale == Scaled(k, sum, a)
    ensures scale == k + alpha * value
  {
    assert count * a == alpha;
    Exchanged(count, value, a);
  }

  lemma Exchanged(count: real, value: real, a: real)
    ensures count * value * a == count * a * value
  {
  }

  /** Where the window is whole, channels that are all `v` have scale `k + alpha * v * v`. */
  lemma EvenAcross(p: Lrn, x: Tensor, k: real, alpha: real, u: Cell, v: real)
    requires p.Sufficient() && p.PrePad() <= u.c && u.c + p.pad < p.channels
    requires forall c :: c in Window(p.channels, u.c, p.PrePad(), p.pad) ==> x(Cell(u.n, c, u.y, u.x)) == v
    ensures ScaleAcross(p, x, k, alpha / p.area as real)(u) == k + alpha * (v * v)
  {
    SpanSize(p.channels, u.c - p.PrePad(), u.c + p.pad + 1);
    EvenSpan(p, x, k, alpha, u, v);
  }

  lemma EvenSpan(p: Lrn, x: Tensor, k: real, alpha: real, u: Cell, v: real)
    requires p.Sufficient() && |Window(p.channels, u.c, p.PrePad(), p.pad)| == p.area
    requires forall c :: c in Window(p.channels, u.c, p.PrePad(), p.pad) ==> x(Cell(u.n, c, u.y, u.x)) == v
    ensures ScaleAcross(p, x, k, alpha / p.area as real)(u) == k + alpha * (v * v)
  {
    hide SumOver, Window, ScaleAcross, Scaled;
    var window, count := Window(p.channels, u.c, p.PrePad(), p.pad), p.area as real;
    SumConstant(window, Squares(x, u), v * v);
    AcrossAt(p, x, k, alpha / count, u);
    hide Squares;
    Evened(k, v * v, count, alpha, SumOver(window, Squares(x, u)), alpha / count,
           ScaleAcross(p, x, k, alpha / count)(u));
  }

  function Block(n: int, c: int, y: int, x: int, height: nat, width: nat): (s: set<Cell>)
    ensures forall v: Cell :: v in s <==> v.n == n && v.c == c && y <= v.y < y + height && x <= v.x < x + width
  {
    set j, i | y <= j < y + height && x <= i < x + width :: Cell(n, c, j, i)
  }

  lemma {:induction false} StripSize(n: int, c: int, y: int, x: int, width: nat)
    ensures |Block(n, c, y, x, 1, width)| == width
  {
    if width == 0 {
      assert Block(n, c, y, x, 1, width) == {};
    } else {
      StripSize(n, c, y, x, width - 1);
      assert Block(n, c, y, x, 1, width) == Block(n, c, y, x, 1, width - 1) + {Cell(n, c, y, x + width - 1)};
    }
  }

  function Area(height: nat, width: nat): nat { height * width }

  lemma {:induction false} BlockSize(n: int, c: int, y: int, x: int, height: nat, width: nat)
    ensures |Block(n, c, y, x, height, width)| == Area(height, width)
    decreases height
  {
    hide Block, Area;
    if height == 0 {
      NoBlock(n, c, y, x, width);
    } else {
      BlockSize(n, c, y, x, height - 1, width);
      StripSize(n, c, y + height - 1, x, width);
      Stacked(n, c, y, x, height, width);
      OneMore(height, width);
      BothSizes(Block(n, c, y, x, height - 1, width), Block(n, c, y + height - 1, x, 1, width));
    }
  }

  lemma BothSizes(a: set<Cell>, b: set<Cell>)
    requires a !! b
    ensures |a + b| == |a| + |b|
  {
  }

  lemma NoBlock(n: int, c: int, y: int, x: int, width: nat)
    ensures Block(n, c, y, x, 0, width) == {} && Area(0, width) == 0
  {
  }

  lemma Stacked(n: int, c: int, y: int, x: int, height: nat, width: nat)
    requires height >= 1
    ensures Block(n, c, y, x, height, width)
         == Block(n, c, y, x, height - 1, width) + Block(n, c, y + height - 1, x, 1, width)
    ensures Block(n, c, y, x, height - 1, width) !! Block(n, c, y + height - 1, x, 1, width)
  {
  }

  lemma OneMore(height: nat, width: nat)
    requires height >= 1
    ensures Area(height, width) == Area(height - 1, width) + width
  {
  }

  /** Where the square is whole, a plane that is `v` all over it has scale `k + alpha * v * v`. */
  lemma EvenWithin(p: Lrn, x: Tensor, k: real, alpha: real, u: Cell, v: real)
    requires p.Sufficient() && u in p.Cells()
    requires p.PrePad() <= u.y && u.y + p.pad < p.height && p.PrePad() <= u.x && u.x + p.pad < p.width
    requires forall w :: w in LrnWithin.Square(p, u, p.PrePad(), p.pad) ==> x(w) == v
    ensures ScaleWithin(p, x, k, alpha)(u) == k + alpha * (v * v)
  {
    BlockSize(u.n, u.c, u.y - p.PrePad(), u.x - p.PrePad(), p.area, p.area);
    assert LrnWithin.Square(p, u, p.PrePad(), p.pad)
           == Block(u.n, u.c, u.y - p.PrePad(), u.x - p.PrePad(), p.area, p.area);
    EvenSquare(p, x, k, alpha, u, v);
  }

  lemma EvenSquare(p: Lrn, x: Tensor, k: real, alpha: real, u: Cell, v: real)
    requires p.Sufficient() && |LrnWithin.Square(p, u, p.PrePad(), p.pad)| == p.area * p.area
    requires forall w :: w in LrnWithin.Square(p, u, p.PrePad(), p.pad) ==> x(w) == v
    ensures ScaleWithin(p, x, k, alpha)(u) == k + alpha * (v * v)
  {
    hide SumOver, LrnWithin.Square, ScaleWithin, Scaled;
    AreaPositive(p);
    var square, count := LrnWithin.Square(p, u, p.PrePad(), p.pad), (p.area * p.area) as real;
    SumConstant(square, SquareAt(x), v * v);
    WithinIs(p, x, k, alpha, u);
    hide SquareAt;
    Evened(k, v * v, count, alpha, SumOver(square, SquareAt(x)), PerSquare(p, alpha), ScaleWithin(p, x, k, alpha)(u));
  }
}
