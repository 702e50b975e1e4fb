/** The softmax in front of the loss: inputs are exponentials of activations, hence positive. */
module CtcSoftmax {
  import opened CtcLayout
  import opened CtcGradient

  ghost predicate AllPositive(xs: seq<real>) {
    forall i :: 0 <= i < |xs| ==> xs[i] > 0.0
  }

  lemma {:induction false} TotalPositive(row: seq<real>, c: nat)
    requires AllPositive(row) && c <= |row|
    ensures RowTotal(row, c) >= 0.0 && (c >= 1 ==> RowTotal(row, c) > 0.0)
  {
    if c > 0 { TotalPositive(row, c - 1); }
  }

  function SoftmaxRow(row: seq<real>): (p: seq<real>)
    requires AllPositive(row)
    ensures |p| == |row|
  {
    TotalPositive(row, |row|);
    seq(|row|, i requires 0 <= i < |row| && RowTotal(row, |row|) > 0.0 => row[i] / RowTotal(row, |row|))
  }

  lemma {:induction false} ScaledTotal(row: seq<real>, scaled: seq<real>, m: real, c: nat)
    requires |row| == |scaled| && c <= |row| && m > 0.0
    requires forall i :: 0 <= i < |row| ==> scaled[i] == row[i] / m
    ensures RowTotal(scaled, c) == RowTotal(row, c) / m
  {
    if c > 0 { ScaledTotal(row, scaled, m, c - 1); }
  }

  lemma NotPositive(t: real, m: real)
    requires m > 0.0
    ensures t <= 0.0 ==> t * m <= 0.0
  {
  }

  lemma ScaleCancels(x: real, m: real, total: real)
    requires m > 0.0 && total > 0.0
    ensures total / m > 0.0 && x / m / (total / m) == x / total
  {
    var t, u := total / m, x / m;
    assert t * m == total && u * m == x;
    NotPositive(t, m);
    var r := u / t;
    assert r * t == u;
    assert r * total == r * t * m;
  }

  /** A softmax row is positive and sums to one. */
  lemma SoftmaxRowIsDistribution(row: seq<real>)
    requires AllPositive(row) && |row| >= 1
    ensures AllPositive(SoftmaxRow(row)) && RowTotal(SoftmaxRow(row), |row|) == 1.0
  {
    TotalPositive(row, |row|);
    ScaledTotal(row, SoftmaxRow(row), RowTotal(row, |row|), |row|);
    Cancel(RowTotal(row, |row|), 1.0);
    forall i | 0 <= i < |row| ensures SoftmaxRow(row)[i] > 0.0 { QuotientPositive(row[i], RowTotal(row, |row|)); }
  }

  lemma QuotientPositive(x: real, m: real)
    requires x > 0.0 && m > 0.0
    ensures x / m > 0.0
  {
    NotPositive(x / m, m);
  }

  /** Softmax of every packed row of `classes` entries. */
  function SoftmaxRows(probs: seq<real>, classes: nat, rows: nat): (out: seq<real>)
    requires AllPositive(probs) && Row(classes, rows, 0) <= |probs|
    ensures |out| == Row(classes, rows, 0)
  {
    if rows == 0 then []
    else
      RowNext(classes, rows - 1);
      var base := Row(classes, rows - 1, 0);
      SoftmaxRows(probs, classes, rows - 1) + SoftmaxRow(probs[base..base + classes])
  }

  lemma {:induction false} SoftmaxRowsAt(probs: seq<real>, classes: nat, rows: nat, j: nat)
    requires AllPositive(probs) && Row(classes, rows, 0) <= |probs| && j < rows
    ensures Row(classes, j, 0) + classes <= Row(classes, rows, 0)
    ensures SoftmaxRows(probs, classes, rows)[Row(classes, j, 0)..Row(classes, j, 0) + classes]
         == SoftmaxRow(probs[Row(classes, j, 0)..Row(classes, j, 0) + classes])
  {
    RowNext(classes, j);
    RowNext(classes, rows - 1);
    RowBefore(classes, j, rows);
    var base := Row(classes, j, 0);
    assert AllPositive(probs[base..base + classes]);
    hide Row, SoftmaxRow, AllPositive;
    if j + 1 < rows {
      SoftmaxRowsAt(probs, classes, rows - 1, j);
      assert SoftmaxRows(probs, classes, rows)[base..base + classes]
             == SoftmaxRows(probs, classes, rows - 1)[base..base + classes];
    } else {
      assert SoftmaxRows(probs, classes, rows)
             == SoftmaxRows(probs, classes, j) + SoftmaxRow(probs[base..base + classes]);
    }
  }

  lemma {:induction false} SoftmaxRowsPositive(probs: seq<real>, classes: nat, rows: nat)
    requires AllPositive(probs) && Row(classes, rows, 0) <= |probs|
    ensures AllPositive(SoftmaxRows(probs, classes, rows))
  {
    if rows > 0 {
      SoftmaxRowsPositive(probs, classes, rows - 1);
      if classes >= 1 {
        SoftmaxRowIsDistribution(probs[Row(classes, rows - 1, 0)..Row(classes, rows - 1, 0) + classes]);
      }
    }
  }

  method MaxOf(xs: seq<real>) returns (m: real)
    requires |xs| >= 1
    ensures m in xs && forall i :: 0 <= i < |xs| ==> xs[i] <= m
  {
    m := xs[0];
    for i := 1 to |xs|
      invariant m in xs && forall k :: 0 <= k < i ==> xs[k] <= m
    {
      if xs[i] > m { m := xs[i]; }
    }
  }

  /** Scaling a row before it is normalised changes nothing. */
  lemma ScaledIsSoftmax(row: seq<real>, scaled: seq<real>, m: real)
    requires AllPositive(row) && |row| == |scaled| >= 1 && m > 0.0
    requires forall i :: 0 <= i < |row| ==> scaled[i] == row[i] / m
    ensures RowTotal(scaled, |row|) > 0.0
    ensures forall i :: 0 <= i < |row| ==> scaled[i] / RowTotal(scaled, |row|) == SoftmaxRow(row)[i]
  {
    hide RowTotal;
    ScaledTotal(row, scaled, m, |row|);
    TotalPositive(row, |row|);
    ScaleCancels(1.0, m, RowTotal(row, |row|));
    forall i | 0 <= i < |row| ensures scaled[i] / RowTotal(scaled, |row|) == SoftmaxRow(row)[i] {
      ScaleCancels(row[i], m, RowTotal(row, |row|));
    }
  }

  method TotalOf(xs: seq<real>) returns (sum: real)
    requires |xs| >= 1
    ensures sum == RowTotal(xs, |xs|)
  {
    assert RowTotal(xs, 0) == 0.0;
    sum := xs[0];
    for i := 1 to |xs|
      invariant sum == RowTotal(xs, i)
    {
      sum := xs[i] + sum;
    }
  }

  /** One row through a copy, scaled by its maximum first. */
  method SubvecSoftmax(input: seq<real>, out: array<real>, inOffset: nat, outOffset: nat, length: nat)
    requires AllPositive(input) && length >= 1 && inOffset + length <= |input| && outOffset + length <= out.Length
    modifies out
    ensures out[outOffset..outOffset + length] == SoftmaxRow(input[inOffset..inOffset + length])
    ensures forall q :: 0 <= q < out.Length && !(outOffset <= q < outOffset + length) ==> out[q] == old(out[q])
  {
    hide RowTotal, SoftmaxRow;
    ghost var row := input[inOffset..inOffset + length];
    var m := MaxOf(input[inOffset..inOffset + length]);
    var sub := new real[length](i requires 0 <= i < length => input[inOffset + i] / m);
    ghost var scaled := sub[..];
    assert forall i :: 0 <= i < length ==> scaled[i] == row[i] / m;
    var sum := TotalOf(sub[..]);
    ScaledIsSoftmax(row, scaled, m);
    for i := 0 to length
      modifies out
      invariant forall k :: 0 <= k < i ==> out[outOffset + k] == SoftmaxRow(row)[k]
      invariant forall q :: 0 <= q < out.Length && !(outOffset <= q < outOffset + i) ==> out[q] == old(out[q])
    {
      assert sub[i] == scaled[i];
      out[outOffset + i] := sub[i] / sum;
    }
  }

  /** One row in place, with no copy. */
  method SubvecSoftmaxGpu(input: seq<real>, out: array<real>, inOffset: nat, outOffset: nat, length: nat)
    requires AllPositive(input) && length >= 1 && inOffset + length <= |input| && outOffset + length <= out.Length
    modifies out
    ensures out[outOffset..outOffset + length] == SoftmaxRow(input[inOffset..inOffset + length])
    ensures forall q :: 0 <= q < out.Length && !(outOffset <= q < outOffset + length) ==> out[q] == old(out[q])
  {
    hide RowTotal, SoftmaxRow;
    ghost var row := input[inOffset..inOffset + length];
    var m := MaxOf(input[inOffset..inOffset + length]);
    for i := 0 to length
      invariant forall k :: 0 <= k < i ==> out[outOffset + k] == row[k] / m
      invariant forall q :: 0 <= q < out.Length && !(outOffset <= q < outOffset + i) ==> out[q] == old(out[q])
    {
      out[outOffset + i] := input[inOffset + i] / m;
    }
    ghost var scaled := out[outOffset..outOffset + length];
    var sum := TotalOf(out[outOffset..outOffset + length]);
    ScaledIsSoftmax(row, scaled, m);
    for i := 0 to length
      invariant forall k :: 0 <= k < i ==> out[outOffset + k] == SoftmaxRow(row)[k]
      invariant forall k :: i <= k < length ==> out[outOffset + k] == scaled[k]
      invariant forall q :: 0 <= q < out.Length && !(outOffset <= q < outOffset + length) ==> out[q] == old(out[q])
    {
      out[outOffset + i] := out[outOffset + i] / sum;
    }
  }
}
