/** Unfolding images into columns and folding columns back, as an adjoint pair. */
module ConvColumns {
  import opened Sums
  import opened ConvSpec
  import opened Tensors

  /** Integer division as the source's language has it: towards zero. */
  function Truncated(a: int, b: nat): int
    requires b >= 1
  {
    if a >= 0 then a / b else -((-a) / b)
  }

  /** Number of filter positions along one side; a negative count is taken as one. */
  function Positions(size: nat, pad: nat, filter: nat, stride: nat): nat
    requires stride >= 1
  {
    var count := Truncated(size + 2 * pad - filter, stride) + 1;
    if count < 0 then 1 else count
  }

  /** When the filter fits the padded side, the positions are exactly those at which it lies inside. */
  lemma PositionsFit(size: nat, pad: nat, filter: nat, stride: nat, h: nat)
    requires stride >= 1 && filter <= size + 2 * pad
    ensures h < Positions(size, pad, filter, stride) <==> h * stride + filter <= size + 2 * pad
  {
    var room := size + 2 * pad - filter;
    var last := room / stride;
    assert last * stride <= room < last * stride + stride;
    if h <= last { StridesGrow(h, last, stride); } else { StridesGrow(last + 1, h, stride); }
  }

  lemma StridesGrow(a: nat, b: nat, stride: nat)
    requires a <= b
    ensures a * stride <= b * stride
  {
  }

  /** One image and the filter that slides over it. A column cell is (batch, column row, filter position). */
  datatype Window = Window(channels: nat, height: nat, width: nat, filterHeight: nat, filterWidth: nat, pad: nat,
                           stride: nat) {
    predicate Valid() { filterHeight >= 1 && filterWidth >= 1 && stride >= 1 }

    function HeightCol(): nat
      requires Valid()
    {
      Positions(height, pad, filterHeight, stride)
    }

    function WidthCol(): nat
      requires Valid()
    {
      Positions(width, pad, filterWidth, stride)
    }

    function Rows(): nat { channels * (filterHeight * filterWidth) }

    function ColumnShift(r: int): int
      requires Valid()
    {
      r % filterWidth
    }

    function RowShift(r: int): int
      requires Valid()
    {
      (r / filterWidth) % filterHeight
    }

    function ChannelOf(r: int): int
      requires Valid()
    {
      r / filterHeight / filterWidth
    }

    /** The image cell behind a column cell; it may lie outside. */
    function Source(k: Cell): Cell
      requires Valid()
    {
      Cell(k.n, ChannelOf(k.c), k.y * stride - pad + RowShift(k.c), k.x * stride - pad + ColumnShift(k.c))
    }

    predicate Shows(u: Cell) { 0 <= u.y < height && 0 <= u.x < width }

    predicate ImageHas(b: int, u: Cell) { u.n == b && 0 <= u.c < channels && Shows(u) }

    predicate ColumnHas(b: int, k: Cell)
      requires Valid()
    {
      k.n == b && 0 <= k.c < Rows() && 0 <= k.y < HeightCol() && 0 <= k.x < WidthCol()
    }

    function Image(b: int): (s: set<Cell>)
      ensures forall u :: u in s <==> ImageHas(b, u)
    {
      Slab(b, channels, height, width)
    }

    function Columns(b: int): (s: set<Cell>)
      requires Valid()
      ensures forall k :: k in s <==> ColumnHas(b, k)
    {
      Slab(b, Rows(), HeightCol(), WidthCol())
    }

    function Landed(b: int): (s: set<Cell>)
      requires Valid()
      ensures forall k :: k in s <==> ColumnHas(b, k) && Shows(Source(k))
    {
      set k | k in Columns(b) && Shows(Source(k))
    }

    function SourceKey(): Cell -> Cell
      requires Valid()
    {
      k => Source(k)
    }

    function Unfold(image: Tensor): Tensor
      requires Valid()
    {
      k => if Shows(Source(k)) then image(Source(k)) else 0.0
    }

    ghost function Fold(b: int, columns: Tensor): Tensor
      requires Valid()
    {
      u => Share(Landed(b), SourceKey(), columns, u)
    }
  }

  function Slab(b: int, c: nat, h: nat, w: nat): (s: set<Cell>)
    ensures forall u: Cell :: u in s <==> u.n == b && 0 <= u.c < c && 0 <= u.y < h && 0 <= u.x < w
  {
    set o, y, x | 0 <= o < c && 0 <= y < h && 0 <= x < w :: Cell(b, o, y, x)
  }

  // ---- Column rows as mixed-radix numbers ----

  function RowOf(win: Window, c: int, kj: int, ki: int): int { (c * win.filterHeight + kj) * win.filterWidth + ki }

  lemma Nested(r: nat, a: nat, b: nat)
    requires a >= 1 && b >= 1
    ensures r / a / b == r / b / a
  {
    NestedOnce(r, a, b);
    NestedOnce(r, b, a);
  }

  lemma NestedOnce(r: nat, a: nat, b: nat)
    requires a >= 1 && b >= 1
    ensures a * b >= 1 && r / a / b == r / (a * b)
  {
    var q := r / a / b;
    var rest := (r / a) % b * a + r % a;
    NestedRest(r, a, b);
    DivisionIs(a * b, q, rest);
  }

  lemma NestedRest(r: nat, a: nat, b: nat)
    requires a >= 1 && b >= 1
    ensures r == (r / a / b) * (a * b) + ((r / a) % b * a + r % a)
    ensures 0 <= (r / a) % b * a + r % a < a * b
  {
    var q, d, e := r / a / b, (r / a) % b, r % a;
    assert (q * b + d) * a == q * (a * b) + d * a;
    Below(a, b, d, e);
  }

  /** Every channel and filter place has a column row of its own, and the source's divisions find them back. */
  lemma RowDecodes(win: Window, c: int, kj: int, ki: int)
    requires win.Valid() && 0 <= c < win.channels && 0 <= kj < win.filterHeight && 0 <= ki < win.filterWidth
    ensures 0 <= RowOf(win, c, kj, ki) < win.Rows()
    ensures win.ChannelOf(RowOf(win, c, kj, ki)) == c
    ensures win.RowShift(RowOf(win, c, kj, ki)) == kj && win.ColumnShift(RowOf(win, c, kj, ki)) == ki
  {
    var r := RowOf(win, c, kj, ki);
    DivisionIs(win.filterWidth, c * win.filterHeight + kj, ki);
    DivisionIs(win.filterHeight, c, kj);
    RowWithin(win, c, kj, ki);
    Nested(r, win.filterHeight, win.filterWidth);
  }

  lemma RowWithin(win: Window, c: int, kj: int, ki: int)
    requires win.Valid() && 0 <= c < win.channels && 0 <= kj < win.filterHeight && 0 <= ki < win.filterWidth
    ensures 0 <= RowOf(win, c, kj, ki) < win.Rows()
    ensures RowOf(win, c, kj, ki) == c * (win.filterHeight * win.filterWidth) + (kj * win.filterWidth + ki)
  {
    Below(win.filterWidth, win.filterHeight, kj, ki);
    Below(win.filterHeight * win.filterWidth, win.channels, c, kj * win.filterWidth + ki);
    assert (c * win.filterHeight + kj) * win.filterWidth
           == c * (win.filterHeight * win.filterWidth) + kj * win.filterWidth;
  }

  lemma RowEncodes(win: Window, r: int)
    requires win.Valid() && 0 <= r < win.Rows()
    ensures 0 <= win.ChannelOf(r) < win.channels
    ensures 0 <= win.RowShift(r) < win.filterHeight && 0 <= win.ColumnShift(r) < win.filterWidth
    ensures RowOf(win, win.ChannelOf(r), win.RowShift(r), win.ColumnShift(r)) == r
  {
    Nested(r, win.filterHeight, win.filterWidth);
    var q := r / win.filterWidth;
    assert q == q / win.filterHeight * win.filterHeight + q % win.filterHeight;
    NestedOnce(r, win.filterWidth, win.filterHeight);
    QuotientBelow(r, win.filterWidth * win.filterHeight, win.channels);
  }

  lemma SourceInImage(win: Window, b: int, k: Cell)
    requires win.Valid() && win.ColumnHas(b, k) && win.Shows(win.Source(k))
    ensures win.ImageHas(b, win.Source(k))
  {
    RowEncodes(win, k.c);
  }

  // ---- The adjoint pair ----

  lemma UnfoldAt(win: Window, image: Tensor, columns: Tensor, k: Cell)
    requires win.Valid()
    ensures Times(win.Unfold(image), columns)(k)
            == if win.Shows(win.Source(k)) then columns(k) * image(win.Source(k)) else 0.0
  {
    hide Window.Source, Window.Shows;
    assert win.Unfold(image)(k) == if win.Shows(win.Source(k)) then image(win.Source(k)) else 0.0;
  }

  lemma InnerIs(cells: set<Cell>, a: Tensor, b: Tensor)
    ensures Inner(cells, a, b) == SumOver(cells, Times(a, b))
  {
  }

  lemma UnfoldFoldAdjoint(win: Window, b: int, image: Tensor, columns: Tensor)
    requires win.Valid()
    ensures Inner(win.Columns(b), win.Unfold(image), columns) == Inner(win.Image(b), win.Fold(b, columns), image)
  {
    hide Window.Source, Window.Shows, Window.ImageHas, Window.ColumnHas, Window.Unfold, Window.Fold, Times, SumOver;
    hide Inner;
    InnerIs(win.Columns(b), win.Unfold(image), columns);
    var product := Times(win.Unfold(image), columns);
    forall k: Cell
      ensures product(k) == if win.Shows(win.Source(k)) then columns(k) * image(win.Source(k)) else 0.0
    {
      UnfoldAt(win, image, columns, k);
    }
    SumPart(win.Columns(b), win.Landed(b), product);
    LandedPairing(win, b, image, columns, product);
  }

  lemma KeyInImage(win: Window, b: int, k: Cell)
    requires win.Valid() && k in win.Landed(b)
    ensures win.SourceKey()(k) in win.Image(b)
  {
    SourceInImage(win, b, k);
  }

  lemma FoldTimes(win: Window, b: int, image: Tensor, columns: Tensor, u: Cell)
    requires win.Valid()
    ensures Times(win.Fold(b, columns), image)(u) == Share(win.Landed(b), win.SourceKey(), columns, u) * image(u)
  {
    hide Share, Window.Landed, Window.SourceKey;
  }

  lemma LandedPairing(win: Window, b: int, image: Tensor, columns: Tensor, product: Tensor)
    requires win.Valid()
    requires forall k :: k in win.Landed(b) ==> product(k) == columns(k) * image(win.SourceKey()(k))
    ensures SumOver(win.Landed(b), product) == Inner(win.Image(b), win.Fold(b, columns), image)
  {
    hide Window.Source, Window.Shows, Window.ImageHas, Window.ColumnHas, Window.Fold, Window.SourceKey, Times, Share;
    forall k | k in win.Landed(b) ensures win.SourceKey()(k) in win.Image(b) { KeyInImage(win, b, k); }
    forall u: Cell
      ensures Times(win.Fold(b, columns), image)(u) == Share(win.Landed(b), win.SourceKey(), columns, u) * image(u)
    {
      FoldTimes(win, b, image, columns, u);
    }
    Pairing(win.Landed(b), win.Image(b), win.SourceKey(), columns, image, Times(win.Fold(b, columns), image), product);
  }

  /** How many filter positions read an image cell. */
  ghost function Cover(win: Window, b: int, u: Cell): nat
    requires win.Valid()
  {
    |Fibre(win.Landed(b), win.SourceKey(), u)|
  }

  /** Folding what was unfolded multiplies every cell by the number of windows over it. */
  lemma FoldOfUnfold(win: Window, b: int, image: Tensor, u: Cell)
    requires win.Valid() && win.ImageHas(b, u)
    ensures win.Fold(b, win.Unfold(image))(u) == Cover(win, b, u) as real * image(u)
  {
    hide Window.Source, Window.Shows, Window.ImageHas, Window.ColumnHas;
    SumConstant(Fibre(win.Landed(b), win.SourceKey(), u), win.Unfold(image), image(u));
  }
}
