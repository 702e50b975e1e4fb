/** How tables lie in flat buffers. */
module CtcLayout {
  import opened CtcSpec

  /** Cell `i` of row `t` in a table with rows of `width` cells. */
  function Row(width: nat, t: nat, i: nat): nat {
    t * width + i
  }

  lemma RowsFit(width: nat, rows: nat)
    ensures forall t: nat, i: nat :: t < rows && i < width ==> Row(width, t, i) < rows * width
    ensures forall t: nat, i: nat, u: nat, j: nat ::
              i < width && j < width && Row(width, t, i) == Row(width, u, j) ==> t == u && i == j
  {
    hide Row;
    forall t: nat, i: nat | t < rows && i < width ensures Row(width, t, i) < rows * width {
      RowInside(width, rows, t, i);
    }
    forall t: nat, i: nat, u: nat, j: nat | i < width && j < width && Row(width, t, i) == Row(width, u, j)
      ensures t == u && i == j
    {
      RowInjective(width, t, i, u, j);
    }
  }

  lemma RowInside(width: nat, rows: nat, t: nat, i: nat)
    requires t < rows && i < width
    ensures Row(width, t, i) < rows * width
  {
    assert (t + 1) * width <= rows * width;
  }

  lemma RowInjective(width: nat, t: nat, i: nat, u: nat, j: nat)
    requires i < width && j < width && Row(width, t, i) == Row(width, u, j)
    ensures t == u && i == j
  {
    if t < u { RowOrdered(width, t, i, u, j); } else if u < t { RowOrdered(width, u, j, t, i); }
  }

  lemma RowOrdered(width: nat, t: nat, i: nat, u: nat, j: nat)
    requires t < u && i < width
    ensures Row(width, t, i) < Row(width, u, j)
  {
    assert (t + 1) * width <= u * width;
  }

  lemma RowsStack(width: nat, rows: nat)
    ensures forall t: nat, u: nat :: t < u ==> Row(width, t, 0) + width <= Row(width, u, 0)
    ensures forall t: nat :: t < rows ==> Row(width, t, 0) + width <= rows * width
  {
    forall t: nat, u: nat | t < u ensures Row(width, t, 0) + width <= Row(width, u, 0) {
      RowBefore(width, t, u);
    }
    forall t: nat | t < rows ensures Row(width, t, 0) + width <= rows * width {
      assert (t + 1) * width <= rows * width;
    }
  }

  lemma RowBefore(width: nat, t: nat, u: nat)
    requires t < u
    ensures Row(width, t, 0) + width <= Row(width, u, 0)
  {
    assert (t + 1) * width <= u * width;
  }

  lemma RowNext(width: nat, t: nat)
    ensures Row(width, t + 1, 0) == Row(width, t, 0) + width
  {
  }

  lemma RowValue(width: nat, t: nat)
    ensures Row(width, t, 0) == t * width
  {
  }

  /** Strides of a tensor over time, batch and class; the class stride is one. */
  datatype Strides = Strides(time: nat, batch: nat)

  function Offset(s: Strides, t: nat, b: nat, c: nat): nat {
    t * s.time + b * s.batch + c
  }

  ghost predicate Fits(s: Strides, steps: nat, b: nat, classes: nat, size: nat) {
    forall t: nat, c: nat :: t < steps && c < classes ==> Offset(s, t, b, c) < size
  }

  /** No two cells share a place. */
  ghost predicate Separate(s: Strides, steps: nat, batches: nat, classes: nat) {
    forall t: nat, b: nat, c: nat, u: nat, d: nat, e: nat ::
      t < steps && b < batches && c < classes && u < steps && d < batches && e < classes
      && Offset(s, t, b, c) == Offset(s, u, d, e)
      ==> t == u && b == d && c == e
  }

  /** Whether a place belongs to a batch item. */
  ghost predicate Touches(s: Strides, steps: nat, b: nat, classes: nat, place: int) {
    exists t: nat, c: nat :: t < steps && c < classes && Offset(s, t, b, c) == place
  }

  /** The table of one batch item. */
  function TableOf(flat: seq<real>, s: Strides, b: nat, steps: nat, classes: nat): (y: Table)
    requires Fits(s, steps, b, classes, |flat|)
    ensures IsTable(y, steps, classes)
    ensures forall t: nat, c: nat :: t < steps && c < classes ==> y[t][c] == flat[Offset(s, t, b, c)]
  {
    seq(steps, t requires 0 <= t < steps =>
      seq(classes, c requires 0 <= c < classes && Fits(s, steps, b, classes, |flat|) => flat[Offset(s, t, b, c)]))
  }

  /** Time-major, batch, class without gaps. */
  function Packed(batches: nat, classes: nat): Strides {
    Strides(batches * classes, classes)
  }

  lemma PackedOffset(steps: nat, batches: nat, classes: nat, t: nat, b: nat, c: nat)
    ensures Offset(Packed(batches, classes), t, b, c) == Row(classes, Row(batches, t, b), c)
  {
    assert t * (batches * classes) + b * classes == (t * batches + b) * classes;
  }

  lemma PackedIsSound(steps: nat, batches: nat, classes: nat)
    ensures Separate(Packed(batches, classes), steps, batches, classes)
    ensures forall b: nat :: b < batches ==>
              Fits(Packed(batches, classes), steps, b, classes, steps * batches * classes)
  {
    var s := Packed(batches, classes);
    forall t: nat, b: nat, c: nat, u: nat, d: nat, e: nat |
      t < steps && b < batches && c < classes && u < steps && d < batches && e < classes
      && Offset(s, t, b, c) == Offset(s, u, d, e)
      ensures t == u && b == d && c == e
    {
      PackedOffset(steps, batches, classes, t, b, c);
      PackedOffset(steps, batches, classes, u, d, e);
      RowsFit(classes, steps * batches);
      RowsFit(batches, steps);
    }
    forall b: nat, t: nat, c: nat | b < batches && t < steps && c < classes
      ensures Offset(s, t, b, c) < steps * batches * classes
    {
      PackedOffset(steps, batches, classes, t, b, c);
      RowInside(batches, steps, t, b);
      RowInside(classes, steps * batches, Row(batches, t, b), c);
    }
  }
}
