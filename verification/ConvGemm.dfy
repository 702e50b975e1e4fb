/** Backward-data through a matrix product and column folding, and why it equals the direct loops. */
module ConvGemm {
  import opened Sums
  import opened ConvSpec
  import opened Tensors
  import opened ConvDirect
  import opened ConvColumns

  // ---- Matrix product ----

  datatype Matrix = Matrix(base: nat, rows: nat, cols: nat, stride: nat) {
    function At(row: int, col: int): int { base + row * stride + col }

    ghost predicate Inside(size: nat) {
      forall row, col :: 0 <= row < rows && 0 <= col < cols ==> 0 <= At(row, col) < size
    }

    ghost predicate Separate() {
      forall row, col, row', col' ::
        0 <= row < rows && 0 <= col < cols && 0 <= row' < rows && 0 <= col' < cols && At(row, col) == At(row', col')
        ==> row == row' && col == col'
    }

    predicate Misses(q: int) {
      forall row, col :: 0 <= row < rows && 0 <= col < cols ==> At(row, col) != q
    }

    /** Entry of the matrix, or of its transpose. */
    function Entry(data: seq<real>, transposed: bool, row: int, col: int): real {
      var q := if transposed then At(col, row) else At(row, col);
      if 0 <= q < |data| then data[q] else 0.0
    }

    function Height(transposed: bool): nat { if transposed then cols else rows }

    function Width(transposed: bool): nat { if transposed then rows else cols }
  }

  function ProductTerm(a: seq<real>, ma: Matrix, ta: bool, b: seq<real>, mb: Matrix, tb: bool, n: int,
                       k: int): int -> real {
    m => ma.Entry(a, ta, n, m) * mb.Entry(b, tb, m, k)
  }

  ghost function Product(a: seq<real>, ma: Matrix, ta: bool, b: seq<real>, mb: Matrix, tb: bool, n: int, k: int): real {
    SumOver(Upto(ma.Width(ta)), ProductTerm(a, ma, ta, b, mb, tb, n, k))
  }

  /** A product read the other way round is the product of the transposed factors in the other order. */
  lemma ProductTransposes(a: seq<real>, ma: Matrix, ta: bool, b: seq<real>, mb: Matrix, tb: bool, n: int, k: int)
    requires ma.Width(ta) == mb.Height(tb)
    ensures Product(a, ma, ta, b, mb, tb, n, k) == Product(b, mb, !tb, a, ma, !ta, k, n)
  {
    hide Matrix.At, SumOver;
    SumSame(Upto(ma.Width(ta)), ProductTerm(a, ma, ta, b, mb, tb, n, k), ProductTerm(b, mb, !tb, a, ma, !ta, k, n));
  }

  predicate Conforms(ma: Matrix, ta: bool, mb: Matrix, tb: bool, mc: Matrix) {
    ma.Width(ta) == mb.Height(tb) && ma.Height(ta) == mc.rows && mb.Width(tb) == mc.cols
  }

  function Blend(beta: real, c: real, alpha: real, product: real): real { beta * c + alpha * product }

  method DotProduct(a: seq<real>, ma: Matrix, ta: bool, b: seq<real>, mb: Matrix, tb: bool, n: nat,
                    k: nat) returns (e: real)
    requires ma.Width(ta) == mb.Height(tb) && n < ma.Height(ta) && k < mb.Width(tb)
    requires ma.Inside(|a|) && mb.Inside(|b|)
    ensures e == Product(a, ma, ta, b, mb, tb, n, k)
  {
    hide Matrix.At, SumOver;
    ghost var f := ProductTerm(a, ma, ta, b, mb, tb, n, k);
    SumEmpty(f);
    assert Upto(0) == {};
    e := 0.0;
    for m := 0 to ma.Width(ta)
      invariant e == SumOver(Upto(m), f)
    {
      var left := a[if ta then ma.At(m, n) else ma.At(n, m)];
      var right := b[if tb then mb.At(k, m) else mb.At(m, k)];
      assert f(m) == left * right;
      e := e + left * right;
      SumInsert(Upto(m), m, f);
      assert Upto(m) + {m} == Upto(m + 1);
    }
  }

  /** Both factors transposed: every term goes straight into the target. */
  method AddProduct(a: seq<real>, ma: Matrix, b: seq<real>, mb: Matrix, c: array<real>, place: int, n: nat, k: nat)
    requires ma.Width(true) == mb.Height(true) && n < ma.Height(true) && k < mb.Width(true)
    requires ma.Inside(|a|) && mb.Inside(|b|) && 0 <= place < c.Length
    modifies c
    ensures c[place] == old(c[place]) + Product(a, ma, true, b, mb, true, n, k)
    ensures forall q :: 0 <= q < c.Length && q != place ==> c[q] == old(c[q])
  {
    hide Matrix.At, SumOver;
    ghost var f := ProductTerm(a, ma, true, b, mb, true, n, k);
    SumEmpty(f);
    assert Upto(0) == {};
    for m := 0 to ma.Width(true)
      invariant c[place] == old(c[place]) + SumOver(Upto(m), f)
      invariant forall q :: 0 <= q < c.Length && q != place ==> c[q] == old(c[q])
    {
      var left, right := a[ma.At(m, n)], b[mb.At(k, m)];
      assert f(m) == left * right;
      c[place] := c[place] + left * right;
      SumInsert(Upto(m), m, f);
      assert Upto(m) + {m} == Upto(m + 1);
    }
  }

  /**
   What one entry of the target becomes. When both factors are transposed the product is added to the old entry before
   that is scaled, and `alpha` scales nothing.
   */
  function Entered(ta: bool, tb: bool, beta: real, c: real, alpha: real, product: real): real {
    if ta && tb then beta * (c + product) + alpha * 0.0 else Blend(beta, c, alpha, product)
  }

  /**
   The branch that transposes both does what the others do if and only if the two factors agree or there is nothing to
   add.
   */
  lemma BothTransposed(beta: real, c: real, alpha: real, product: real)
    ensures Entered(true, true, beta, c, alpha, product) == Blend(beta, c, alpha, product) <==>
              alpha == beta || product == 0.0
  {
    assert beta * (c + product) + alpha * 0.0 - (beta * c + alpha * product) == (beta - alpha) * product;
    NoProduct(beta - alpha, product);
  }

  lemma NoProduct(a: real, b: real)
    ensures a * b == 0.0 <==> a == 0.0 || b == 0.0
  {
    if a != 0.0 && b != 0.0 { Nonzero(a, b); }
  }

  lemma Nonzero(a: real, b: real)
    requires a != 0.0 && b != 0.0
    ensures a * b != 0.0
  {
    assert a * b / b == a;
  }

  /** Scaled product into a scaled target, either factor transposed or both. */
  method MatrixMultiply(a: seq<real>, ma: Matrix, ta: bool, b: seq<real>, mb: Matrix, tb: bool, c: array<real>,
                        mc: Matrix, alpha: real, beta: real)
    returns (ok: bool)
    requires ma.Inside(|a|) && mb.Inside(|b|) && mc.Inside(c.Length) && mc.Separate()
    modifies c
    ensures ok <==> Conforms(ma, ta, mb, tb, mc)
    ensures !ok ==> c[..] == old(c[..])
    ensures ok ==> forall n, k :: 0 <= n < mc.rows && 0 <= k < mc.cols ==>
              c[mc.At(n, k)] == Entered(ta, tb, beta, old(c[mc.At(n, k)]), alpha, Product(a, ma, ta, b, mb, tb, n, k))
    ensures forall q :: 0 <= q < c.Length && mc.Misses(q) ==> c[q] == old(c[q])
  {
    hide Matrix.At, Product, Blend, Entered;
    if !Conforms(ma, ta, mb, tb, mc) { return false; }
    for n := 0 to mc.rows
      invariant forall r, k :: 0 <= r < n && 0 <= k < mc.cols ==>
                  c[mc.At(r, k)]
                    == Entered(ta, tb, beta, old(c[mc.At(r, k)]), alpha, Product(a, ma, ta, b, mb, tb, r, k))
      invariant forall r, k :: n <= r < mc.rows && 0 <= k < mc.cols ==> c[mc.At(r, k)] == old(c[mc.At(r, k)])
      invariant forall q :: 0 <= q < c.Length && mc.Misses(q) ==> c[q] == old(c[q])
    {
      MultiplyRow(a, ma, ta, b, mb, tb, c, mc, alpha, beta, n);
    }
    return true;
  }

  method MultiplyRow(a: seq<real>, ma: Matrix, ta: bool, b: seq<real>, mb: Matrix, tb: bool, c: array<real>, mc: Matrix,
                     alpha: real, beta: real, n: nat)
    requires Conforms(ma, ta, mb, tb, mc) && n < mc.rows
    requires ma.Inside(|a|) && mb.Inside(|b|) && mc.Inside(c.Length) && mc.Separate()
    modifies c
    ensures forall k :: 0 <= k < mc.cols ==>
              c[mc.At(n, k)] == Entered(ta, tb, beta, old(c[mc.At(n, k)]), alpha, Product(a, ma, ta, b, mb, tb, n, k))
    ensures forall r, k :: 0 <= r < mc.rows && 0 <= k < mc.cols && r != n ==> c[mc.At(r, k)] == old(c[mc.At(r, k)])
    ensures forall q :: 0 <= q < c.Length && mc.Misses(q) ==> c[q] == old(c[q])
  {
    hide Matrix.At, Product, Blend;
    for k := 0 to mc.cols
      invariant forall i :: 0 <= i < k ==>
                  c[mc.At(n, i)]
                    == Entered(ta, tb, beta, old(c[mc.At(n, i)]), alpha, Product(a, ma, ta, b, mb, tb, n, i))
      invariant forall r, i :: 0 <= r < mc.rows && 0 <= i < mc.cols && (r != n || i >= k) ==>
                  c[mc.At(r, i)] == old(c[mc.At(r, i)])
      invariant forall q :: 0 <= q < c.Length && mc.Misses(q) ==> c[q] == old(c[q])
    {
      if ta && tb {
        AddProduct(a, ma, b, mb, c, mc.At(n, k), n, k);
        c[mc.At(n, k)] := beta * c[mc.At(n, k)] + alpha * 0.0;
      } else {
        var e := DotProduct(a, ma, ta, b, mb, tb, n, k);
        c[mc.At(n, k)] := Blend(beta, c[mc.At(n, k)], alpha, e);
      }
    }
  }

  // ---- Folding the product is the direct sum ----

  /** Square padding and stride, no dilation, and an output plane of the size the column routines compute. */
  ghost predicate Foldable(p: Shape) {
    && Undilated(p) && p.strideH == p.strideW >= 1 && p.padH == p.padW && p.filterHeight >= 1 && p.filterWidth >= 1
    && p.topHeight == WindowOf(p).HeightCol() && p.topWidth == WindowOf(p).WidthCol()
  }

  function WindowOf(p: Shape): (win: Window)
    ensures p.filterHeight >= 1 && p.filterWidth >= 1 && p.strideH >= 1 ==> win.Valid()
  {
    Window(p.inputs, p.botHeight, p.botWidth, p.filterHeight, p.filterWidth, p.padH, p.strideH)
  }

  function ColumnOf(p: Shape): Tap -> Cell {
    (t: Tap) => Cell(t.b, RowOf(WindowOf(p), t.c, t.kj, t.ki), t.j, t.i)
  }

  /** The tap that leads from output channel `o` into column cell `k`. */
  function TapOf(p: Shape, k: Cell): int -> Tap
    requires WindowOf(p).Valid()
  {
    var win := WindowOf(p);
    o => Tap(k.n, o, win.ChannelOf(k.c), k.y, k.x, win.RowShift(k.c), win.ColumnShift(k.c))
  }

  function OutputTerm(p: Shape, y: Tensor, w: Tensor, k: Cell): int -> real
    requires WindowOf(p).Valid()
  {
    o => p.DataTerm(y, w)(TapOf(p, k)(o))
  }

  /** What the transposed product puts into column cell `k`. */
  ghost function ColumnValue(p: Shape, y: Tensor, w: Tensor, k: Cell): real
    requires WindowOf(p).Valid()
  {
    SumOver(Upto(p.outputs), OutputTerm(p, y, w, k))
  }

  lemma SourceOfColumn(p: Shape, t: Tap)
    requires Foldable(p) && p.Has(t)
    ensures WindowOf(p).Source(ColumnOf(p)(t)) == p.BotOf(t)
    ensures WindowOf(p).ColumnHas(t.b, ColumnOf(p)(t))
    ensures TapOf(p, ColumnOf(p)(t))(t.o) == t
  {
    hide Positions;
    RowDecodes(WindowOf(p), t.c, t.kj, t.ki);
  }

  lemma ColumnOfTap(p: Shape, k: Cell, o: int)
    requires Foldable(p) && 0 <= k.n < p.batches && WindowOf(p).ColumnHas(k.n, k) && 0 <= o < p.outputs
    ensures p.Has(TapOf(p, k)(o)) && ColumnOf(p)(TapOf(p, k)(o)) == k
    ensures p.BotOf(TapOf(p, k)(o)) == WindowOf(p).Source(k)
  {
    hide Positions;
    RowEncodes(WindowOf(p), k.c);
  }

  ghost function HitTaps(p: Shape, u: Cell): set<Tap> { Fibre(p.Landing(), p.BotKey(), u) }

  ghost function HitColumns(p: Shape, u: Cell): set<Cell>
    requires WindowOf(p).Valid()
  {
    Fibre(WindowOf(p).Landed(u.n), WindowOf(p).SourceKey(), u)
  }

  lemma HitTapsAre(p: Shape, u: Cell, t: Tap)
    requires p.BotHas(u)
    ensures t in HitTaps(p, u) <==> p.Has(t) && p.BotOf(t) == u
  {
    hide Shape.BotOf, Shape.BotHas, Shape.Has;
  }

  lemma HitColumnsAre(p: Shape, u: Cell, k: Cell)
    requires WindowOf(p).Valid() && p.BotHas(u)
    ensures k in HitColumns(p, u) <==> WindowOf(p).ColumnHas(u.n, k) && WindowOf(p).Source(k) == u
  {
    hide Window.Source, Window.ColumnHas;
  }

  lemma OutputsOfColumn(p: Shape, y: Tensor, w: Tensor, u: Cell, k: Cell)
    requires Foldable(p) && WindowOf(p).Valid() && p.BotHas(u) && 0 <= k.n < p.batches
    requires WindowOf(p).ColumnHas(k.n, k) && WindowOf(p).Source(k) == u
    ensures Share(HitTaps(p, u), ColumnOf(p), p.DataTerm(y, w), k) == ColumnValue(p, y, w, k)
  {
    hide HitTaps, HitColumns, Foldable, ColumnOf, TapOf, Shape.DataTerm, Shape.BotHas, Shape.BotOf, Window.Source;
    hide Window.ColumnHas;
    var taps, out := Fibre(HitTaps(p, u), ColumnOf(p), k), (t: Tap) => t.o;
    forall t | t in taps
      ensures out(t) in Upto(p.outputs) && TapOf(p, k)(out(t)) == t
      ensures p.DataTerm(y, w)(t) == OutputTerm(p, y, w, k)(out(t))
    {
      HitTapsAre(p, u, t);
      SourceOfColumn(p, t);
    }
    forall o | o in Upto(p.outputs) ensures TapOf(p, k)(o) in taps && out(TapOf(p, k)(o)) == o {
      TapOutput(p, k, o);
      ColumnOfTap(p, k, o);
      HitTapsAre(p, u, TapOf(p, k)(o));
    }
    Reindex(taps, Upto(p.outputs), out, TapOf(p, k), p.DataTerm(y, w), OutputTerm(p, y, w, k));
  }

  lemma TapOutput(p: Shape, k: Cell, o: int)
    requires WindowOf(p).Valid()
    ensures TapOf(p, k)(o).o == o
  {
  }

  lemma BotKeeps(p: Shape, t: Tap)
    ensures p.BotOf(t).n == t.b
  {
  }

  lemma ColumnInBatch(p: Shape, u: Cell, k: Cell)
    requires WindowOf(p).Valid() && p.BotHas(u) && WindowOf(p).ColumnHas(u.n, k)
    ensures k.n == u.n && 0 <= k.n < p.batches && k in WindowOf(p).Columns(u.n)
  {
  }

  /** Folding the columns of the product gives what the direct loops give. */
  lemma FoldIsBackwardData(p: Shape, y: Tensor, w: Tensor, u: Cell, columns: Tensor)
    requires Foldable(p) && WindowOf(p).Valid() && p.BotHas(u)
    requires forall k :: k in WindowOf(p).Columns(u.n) ==> columns(k) == ColumnValue(p, y, w, k)
    ensures WindowOf(p).Fold(u.n, columns)(u) == p.BackwardData(y, w)(u)
  {
    hide Foldable, ColumnOf, ColumnValue, Shape.Has, Shape.BotHas, Shape.BotOf, Window.Source, Window.ColumnHas;
    hide Shape.DataTerm;
    var taps, hit, f := HitTaps(p, u), HitColumns(p, u), p.DataTerm(y, w);
    forall t | t in taps ensures ColumnOf(p)(t) in hit {
      HitTapsAre(p, u, t);
      SourceOfColumn(p, t);
      assert t.b == u.n by { BotKeeps(p, t); }
      HitColumnsAre(p, u, ColumnOf(p)(t));
    }
    Regroup(taps, hit, ColumnOf(p), f);
    forall k | k in hit ensures Shares(taps, ColumnOf(p), f)(k) == columns(k) {
      HitColumnsAre(p, u, k);
      ColumnInBatch(p, u, k);
      OutputsOfColumn(p, y, w, u, k);
    }
    SumSame(hit, Shares(taps, ColumnOf(p), f), columns);
  }
}
