/**
 The fast path: everything lives in one flat workspace of reals, the backward table is kept in
 two rolling buffers, and each row of it is scattered into `gradTemp` as it is computed.
 Integers kept in the workspace are read back by truncation.
 */
module CtcEmulator {
  import opened CtcSpec
  import opened CtcLayout
  import opened CtcGradient
  import opened CtcTight
  import opened CtcReference

  ghost predicate HoldsInts(cells: seq<real>, offset: int, ints: seq<int>) {
    && 0 <= offset && offset + |ints| <= |cells|
    && forall i :: 0 <= i < |ints| ==> cells[offset + i].Floor == ints[i]
  }

  ghost predicate HoldsTable(cells: seq<real>, offset: int, s: Strides, b: nat, y: Table, classes: nat) {
    && offset >= 0 && IsTable(y, |y|, classes)
    && forall t: nat, c: nat :: t < |y| && c < classes ==>
         offset + Offset(s, t, b, c) < |cells| && y[t][c] == cells[offset + Offset(s, t, b, c)]
  }

  /** All but the cells from `lo` up to `hi` is as before. */
  ghost predicate Outside(now: seq<real>, before: seq<real>, lo: int, hi: int) {
    |now| == |before| && forall q :: 0 <= q < |now| && !(lo <= q < hi) ==> now[q] == before[q]
  }

  ghost predicate OutsideBoth(now: seq<real>, before: seq<real>, lo: int, hi: int, lo2: int, hi2: int) {
    && |now| == |before|
    && forall q :: 0 <= q < |now| && !(lo <= q < hi) && !(lo2 <= q < hi2) ==> now[q] == before[q]
  }

  // ---- Forward ----

  method WriteLabelPrime(ws: array<real>, labOff: nat, length: nat, lpOff: nat, blank: int, ghost lab: seq<int>)
    requires |lab| == length && HoldsInts(ws[..], labOff, lab)
    requires labOff + length <= lpOff && lpOff + 2 * length + 1 <= ws.Length
    modifies ws
    ensures HoldsInts(ws[..], lpOff, LabelPrime(lab, blank))
    ensures Outside(ws[..], old(ws[..]), lpOff, lpOff + 2 * length + 1)
  {
    for i := 0 to length
      invariant forall k :: 0 <= k < i ==> ws[lpOff + (2 * k + 1)].Floor == lab[k]
      invariant Outside(ws[..], old(ws[..]), lpOff, lpOff + 2 * length + 1)
    {
      ws[lpOff + (2 * i + 1)] := ws[labOff + i];
    }
    for i := 0 to length + 1
      invariant forall k :: 0 <= k < length ==> ws[lpOff + (2 * k + 1)].Floor == lab[k]
      invariant forall k :: 0 <= k < i ==> ws[lpOff + 2 * k].Floor == blank
      invariant Outside(ws[..], old(ws[..]), lpOff, lpOff + 2 * length + 1)
    {
      ws[lpOff + 2 * i] := blank as real;
    }
    LabelPrimeHeld(ws[..], lpOff, lab, blank);
  }

  /** Classes at the odd places and blanks at the even ones make up the extended label. */
  lemma LabelPrimeHeld(cells: seq<real>, lpOff: nat, lab: seq<int>, blank: int)
    requires lpOff + 2 * |lab| + 1 <= |cells|
    requires forall k :: 0 <= k < |lab| ==> cells[lpOff + (2 * k + 1)].Floor == lab[k]
    requires forall k :: 0 <= k < |lab| + 1 ==> cells[lpOff + 2 * k].Floor == blank
    ensures HoldsInts(cells, lpOff, LabelPrime(lab, blank))
  {
    forall k | 0 <= k < 2 * |lab| + 1 ensures cells[lpOff + k].Floor == LabelPrime(lab, blank)[k] {
      LabelPrimeCells(lab, blank, (k + 1) / 2);
      if k % 2 == 1 {
        assert cells[lpOff + (2 * (k / 2) + 1)].Floor == lab[k / 2];
      } else {
        assert cells[lpOff + 2 * (k / 2)].Floor == blank;
      }
    }
  }

  /** A row below the first one. */
  method AlphaRowGpu(ws: array<real>, probOff: nat, lpOff: nat, base: nat, width: nat, s: Strides, b: nat, j: nat,
                     blank: int, ghost l: Lattice, ghost first: nat)
    requires l.Valid() && 1 <= j < |l.y| && width == |l.lp| && blank == l.blank
    requires HoldsInts(ws[..], lpOff, l.lp) && HoldsTable(ws[..], probOff, s, b, l.y, l.classes)
    requires lpOff + width <= base && base + width <= ws.Length
    requires forall c: nat :: c < l.classes ==> probOff + Offset(s, j, b, c) < base
    requires HoldsAlpha(ws[..], base - width, l, first, j - 1)
    modifies ws
    ensures HoldsAlpha(ws[..], base, l, first, j)
    ensures Outside(ws[..], old(ws[..]), base, base + width)
  {
    hide Lattice.Alpha, Lattice.Skips;
    hide Offset;
    for i := 0 to width
      invariant forall k: nat :: k < i ==> ws[base + k] == l.Alpha(first, j, k)
      invariant Outside(ws[..], old(ws[..]), base, base + i)
    {
      var current := ws[lpOff + i].Floor;
      var t1s := base - width + i;
      var total := ws[t1s];
      if i >= 1 {
        total := total + ws[t1s - 1];
      }
      if i >= 2 {
        var earlier := ws[lpOff + (i - 2)].Floor;
        if current != blank && current != earlier {
          total := total + ws[t1s - 2];
        }
      }
      AlphaNext(l, first, j, i);
      assert current == l.lp[i];
      assert total == l.Alpha(first, j - 1, i)
               + (if i >= 1 then l.Alpha(first, j - 1, i - 1) else 0.0)
               + (if i >= 2 && l.lp[i] != l.blank && l.lp[i] != l.lp[i - 2] then l.Alpha(first, j - 1, i - 2) else 0.0);
      ws[base + i] := total * ws[probOff + Offset(s, j, b, current)];
    }
  }

  /** The first row: without the leading blank when there is no step to spare. */
  method FirstRowGpu(ws: array<real>, probOff: nat, lpOff: nat, alphaOff: nat, width: nat, s: Strides, b: nat,
                     aidx0: nat, ghost l: Lattice)
    requires l.Valid() && width == |l.lp| && aidx0 <= 1
    requires HoldsInts(ws[..], lpOff, l.lp) && HoldsTable(ws[..], probOff, s, b, l.y, l.classes)
    requires lpOff + width <= alphaOff && alphaOff + width <= ws.Length
    requires forall c: nat :: c < l.classes ==> probOff + Offset(s, 0, b, c) < alphaOff
    requires forall q :: alphaOff <= q < alphaOff + width ==> ws[q] == 0.0
    modifies ws
    ensures HoldsAlpha(ws[..], alphaOff, l, aidx0, 0)
    ensures Outside(ws[..], old(ws[..]), alphaOff, alphaOff + width)
  {
    hide Lattice.Alpha;
    hide Offset;
    var aidx1 := 1;
    for i := aidx0 to aidx1 + 1
      invariant forall k: nat :: aidx0 <= k < i ==> ws[alphaOff + k] == l.Alpha(aidx0, 0, k)
      invariant forall q :: alphaOff <= q < alphaOff + width && !(alphaOff + aidx0 <= q < alphaOff + i) ==> ws[q] == 0.0
      invariant Outside(ws[..], old(ws[..]), alphaOff, alphaOff + width)
    {
      AlphaStart(l, aidx0, i);
      ws[alphaOff + i] := ws[probOff + Offset(s, 0, b, ws[lpOff + i].Floor)];
    }
    forall k: nat | k < width ensures ws[alphaOff + k] == l.Alpha(aidx0, 0, k) { AlphaStart(l, aidx0, k); }
  }

  method LaterRowsGpu(ws: array<real>, probOff: nat, lpOff: nat, alphaOff: nat, width: nat, steps: nat, s: Strides,
                      b: nat, blank: int, ghost l: Lattice, ghost first: nat)
    requires l.Valid() && |l.y| == steps && width == |l.lp| && blank == l.blank
    requires HoldsInts(ws[..], lpOff, l.lp) && HoldsTable(ws[..], probOff, s, b, l.y, l.classes)
    requires lpOff + width <= alphaOff && alphaOff + steps * width <= ws.Length
    requires forall t: nat, c: nat :: t < steps && c < l.classes ==> probOff + Offset(s, t, b, c) < alphaOff
    requires HoldsAlpha(ws[..], alphaOff, l, first, 0)
    modifies ws
    ensures AlphaTable(ws[..], alphaOff, l, first)
    ensures Outside(ws[..], old(ws[..]), alphaOff, alphaOff + steps * width)
  {
    RowsStack(width, steps);
    RowZero(width);
    hide Row, Offset;
    hide Lattice.Alpha;
    ghost var size := steps * width;
    for j := 1 to steps
      invariant forall t: nat :: t < j ==> HoldsAlpha(ws[..], alphaOff + Row(width, t, 0), l, first, t)
      invariant Outside(ws[..], old(ws[..]), alphaOff, alphaOff + size)
    {
      RowNext(width, j - 1);
      AlphaRowGpu(ws, probOff, lpOff, alphaOff + Row(width, j, 0), width, s, b, j, blank, l, first);
    }
  }

  /** The extended label, the forward table and the loss of one batch item. */
  method CtcAlphaGpu(ws: array<real>, probOff: nat, labOff: nat, length: nat, steps: nat, classes: nat, s: Strides,
                     b: nat, repeat: nat, lpOff: nat, alphaOff: nat, losses: array<real>, blankLb: int,
                     ghost lab: seq<int>, ghost l: Lattice)
    requires l.Valid() && |l.y| == steps && l.classes == classes && l.blank == ClampBlank(blankLb, classes)
    requires |lab| == length && l.lp == LabelPrime(lab, l.blank) && repeat == Repeats(lab, length)
    requires ws != losses && b < losses.Length
    requires HoldsInts(ws[..], labOff, lab) && HoldsTable(ws[..], probOff, s, b, l.y, classes)
    requires labOff + length <= lpOff && lpOff + |l.lp| <= probOff <= alphaOff
    requires forall t: nat, c: nat :: t < steps && c < classes ==> probOff + Offset(s, t, b, c) < alphaOff
    requires alphaOff + steps * |l.lp| <= ws.Length
    requires forall q :: alphaOff <= q < alphaOff + steps * |l.lp| ==> ws[q] == 0.0
    modifies ws, losses
    ensures HoldsInts(ws[..], lpOff, l.lp) && AlphaTable(ws[..], alphaOff, l, Suppress(lab, steps))
    ensures losses[b] == l.Likelihood(Suppress(lab, steps))
    ensures forall q :: 0 <= q < losses.Length && q != b ==> losses[q] == old(losses[q])
    ensures OutsideBoth(ws[..], old(ws[..]), lpOff, lpOff + |l.lp|, alphaOff, alphaOff + steps * |l.lp|)
  {
    var width := 2 * length + 1;
    var blank := ClampBlank(blankLb, classes);
    RowsStack(width, steps);
    RowZero(width);
    ghost var size := steps * |l.lp|;
    assert Row(width, 0, 0) + width <= size;
    hide Row, LabelPrime, Offset, Repeats;
    hide Lattice.Alpha;
    WriteLabelPrime(ws, labOff, length, lpOff, blank, lab);
    var aidx0: nat := if length + repeat - steps < 0 then 0 else 1;
    FirstRowGpu(ws, probOff, lpOff, alphaOff, width, s, b, aidx0, l);
    LaterRowsGpu(ws, probOff, lpOff, alphaOff, width, steps, s, b, blank, l, aidx0);
    losses[b] := EndsGpu(ws, alphaOff, l, aidx0, steps, width);
  }

  lemma RowZero(width: nat)
    ensures Row(width, 0, 0) == 0
  {
  }

  method EndsGpu(ws: array<real>, alphaOff: nat, ghost l: Lattice, ghost first: nat, steps: nat,
                 width: nat) returns (likelihood: real)
    requires l.Valid() && |l.y| == steps && width == |l.lp| && AlphaTable(ws[..], alphaOff, l, first)
    requires alphaOff + steps * width <= ws.Length
    ensures likelihood == l.Likelihood(first)
  {
    hide Lattice.Alpha;
    assert HoldsAlpha(ws[..], alphaOff + Row(|l.lp|, steps - 1, 0), l, first, steps - 1);
    assert steps * width == (steps - 1) * width + width;
    var size := steps * width;
    likelihood := ws[alphaOff + (size - 1)] + ws[alphaOff + (size - 2)];
  }

  // ---- Backward and gradients ----

  /** One of the two gradients, by mode. */
  function ModeGradient(l: Lattice, first: nat, last: nat, t: nat, c: nat, softmax: bool): real
    requires l.Valid() && t < |l.y| && c < l.classes && l.y[t][c] > 0.0 && l.Likelihood(first) > 0.0
  {
    if softmax then SoftmaxGradient(l, first, last, t, c) else PlainGradient(l, first, last, t, c)
  }

  /** Turns the class masses of row `t` into gradient entries. */
  method EmitRow(gradTemp: array<real>, gradients: array<real>, ws: array<real>, probOff: nat, s: Strides, g: Strides,
                 b: nat, t: nat, likelihood: real, softmax: bool, batches: nat, ghost l: Lattice, ghost first: nat)
    requires l.Valid() && Positive(l.y) && t < |l.y| && likelihood == l.Likelihood(first) && likelihood > 0.0
    requires gradTemp.Length == l.classes && b < batches
    requires gradTemp != gradients && gradTemp != ws && gradients != ws
    requires forall c: nat :: c < l.classes ==> gradTemp[c] == l.ClassMass(first, first, t, c, |l.lp|)
    requires HoldsTable(ws[..], probOff, s, b, l.y, l.classes)
    requires Fits(g, |l.y|, b, l.classes, gradients.Length) && Separate(g, |l.y|, batches, l.classes)
    modifies gradTemp, gradients
    ensures forall c: nat :: c < l.classes ==>
              gradients[Offset(g, t, b, c)] == ModeGradient(l, first, first, t, c, softmax)
    ensures forall q :: 0 <= q < gradients.Length && (forall c: nat :: c < l.classes ==> q != Offset(g, t, b, c)) ==>
              gradients[q] == old(gradients[q])
  {
    hide Lattice.ClassMass, Lattice.Likelihood;
    hide Offset;
    for i := 0 to gradTemp.Length
      invariant forall c: nat :: i <= c < l.classes ==> gradTemp[c] == l.ClassMass(first, first, t, c, |l.lp|)
      invariant forall c: nat :: c < i ==> gradients[Offset(g, t, b, c)] == ModeGradient(l, first, first, t, c, softmax)
      invariant forall q ::
                  0 <= q < gradients.Length && (forall c: nat :: c < l.classes ==> q != Offset(g, t, b, c)) ==>
                    gradients[q] == old(gradients[q])
    {
      var y := ws[probOff + Offset(s, t, b, i)];
      if softmax {
        gradTemp[i] := gradTemp[i] / y;
        gradTemp[i] := gradTemp[i] / likelihood;
        gradients[Offset(g, t, b, i)] := y - gradTemp[i];
      } else {
        gradTemp[i] := gradTemp[i] / y / y;
        gradTemp[i] := gradTemp[i] / likelihood;
        gradients[Offset(g, t, b, i)] := -gradTemp[i];
      }
    }
  }

  /** The cells from `m` on have been added to the entries of their classes. */
  ghost predicate ScatteredFrom(sums: seq<real>, l: Lattice, first: nat, last: nat, t: nat, m: nat)
    requires l.Valid() && t < |l.y| && m <= |l.lp|
  {
    && |sums| == l.classes
    && forall c: nat :: c < l.classes ==>
         sums[c] == l.ClassMass(first, last, t, c, |l.lp|) - l.ClassMass(first, last, t, c, m)
  }

  lemma ScatterOne(before: seq<real>, after: seq<real>, product: real, l: Lattice, first: nat, last: nat, t: nat,
                   m: nat)
    requires l.Valid() && t < |l.y| && m < |l.lp| && ScatteredFrom(before, l, first, last, t, m + 1)
    requires product == l.Alpha(first, t, m) * l.Beta(last, t, m)
    requires |after| == |before| && after[l.lp[m]] == before[l.lp[m]] + product
    requires forall c :: 0 <= c < |after| && c != l.lp[m] ==> after[c] == before[c]
    ensures ScatteredFrom(after, l, first, last, t, m)
  {
    hide Lattice.Alpha, Lattice.Beta;
  }

  /** On the last row, cells before the last two add nothing to any class. */
  lemma {:induction false} LastRowMass(l: Lattice, first: nat, last: nat, c: int, n: nat)
    requires l.Valid() && n <= |l.lp| - 2
    ensures l.ClassMass(first, last, |l.y| - 1, c, n) == 0.0
  {
    hide Lattice.Alpha, Lattice.Beta;
    if n > 0 {
      LastRowMass(l, first, last, c, n - 1);
      BetaStart(l, last, n - 1);
    }
  }

  lemma ScatteredAll(sums: seq<real>, l: Lattice, first: nat, last: nat, t: nat)
    requires l.Valid() && t < |l.y| && ScatteredFrom(sums, l, first, last, t, 0)
    ensures forall c: nat :: c < l.classes ==> sums[c] == l.ClassMass(first, last, t, c, |l.lp|)
  {
  }

  lemma StartScatter(sums: seq<real>, l: Lattice, first: nat, last: nat)
    requires l.Valid() && last <= 1 && |sums| == l.classes && forall c :: 0 <= c < |sums| ==> sums[c] == 0.0
    ensures ScatteredFrom(sums, l, first, last, |l.y| - 1, |l.lp| - last)
  {
    hide Lattice.Alpha, Lattice.Beta;
    BetaStart(l, last, |l.lp| - 1);
  }

  lemma LastRowScattered(sums: seq<real>, beta: seq<real>, l: Lattice, first: nat, last: nat)
    requires l.Valid() && |beta| == |l.lp| && ScatteredFrom(sums, l, first, last, |l.y| - 1, |l.lp| - 2)
    requires forall i: nat :: i < |beta| ==> beta[i] == if i < |l.lp| - 2 then 0.0 else l.Beta(last, |l.y| - 1, i)
    ensures HoldsBeta(beta, 0, l, last, |l.y| - 1)
    ensures forall c: nat :: c < l.classes ==> sums[c] == l.ClassMass(first, last, |l.y| - 1, c, |l.lp|)
  {
    hide Lattice.Alpha, Lattice.Beta, Lattice.ClassMass;
    forall c: nat | c < l.classes ensures sums[c] == l.ClassMass(first, last, |l.y| - 1, c, |l.lp|) {
      LastRowMass(l, first, last, c, |l.lp| - 2);
    }
    forall i: nat | i < |l.lp| - 2 ensures beta[i] == l.Beta(last, |l.y| - 1, i) { BetaStart(l, last, i); }
  }

  /** The last row of the backward table, scattered by class; `base` is where the last alpha row starts. */
  method LastRowGpu(ws: array<real>, probOff: nat, lpOff: nat, base: nat, width: nat, steps: nat, s: Strides, b: nat,
                    aidx1: nat, beta: array<real>, gradTemp: array<real>, ghost l: Lattice, ghost first: nat)
    requires l.Valid() && |l.y| == steps && width == |l.lp| && aidx1 <= 1
    requires HoldsInts(ws[..], lpOff, l.lp) && HoldsTable(ws[..], probOff, s, b, l.y, l.classes)
    requires HoldsAlpha(ws[..], base, l, first, steps - 1)
    requires beta.Length == width && gradTemp.Length == l.classes
    requires beta != gradTemp && beta != ws && gradTemp != ws
    requires forall i :: 0 <= i < width ==> beta[i] == 0.0
    requires forall c :: 0 <= c < l.classes ==> gradTemp[c] == 0.0
    modifies beta, gradTemp
    ensures HoldsBeta(beta[..], 0, l, aidx1, steps - 1)
    ensures forall c: nat :: c < l.classes ==> gradTemp[c] == l.ClassMass(first, aidx1, steps - 1, c, width)
  {
    hide Lattice.Alpha, Lattice.Beta, Lattice.ClassMass;
    hide Offset;
    var aidx0 := 1;
    ghost var t := steps - 1;
    var k := aidx1;
    BetaStart(l, aidx1, width - 1);
    StartScatter(gradTemp[..], l, first, aidx1);
    while k <= aidx0
      invariant aidx1 <= k <= 2
      invariant forall i: nat :: i < width ==> beta[i] == if i < width - k then 0.0 else l.Beta(aidx1, t, i)
      invariant ScatteredFrom(gradTemp[..], l, first, aidx1, t, width - k)
    {
      var k1 := width - 1 - k;
      var current := ws[lpOff + k1].Floor;
      assert current == l.lp[k1];
      beta[k1] := ws[probOff + Offset(s, steps - 1, b, current)];
      BetaStart(l, aidx1, k1);
      var product := ws[base + k1];
      product := product * beta[k1];
      ghost var before := gradTemp[..];
      gradTemp[current] := gradTemp[current] + product;
      ScatterOne(before, gradTemp[..], product, l, first, aidx1, t, k1);
      k := k + 1;
    }
    LastRowScattered(gradTemp[..], beta[..], l, first, aidx1);
  }

  /** One cell from the three cells it leads to. */
  method BetaCellGpu(ws: seq<real>, probOff: nat, lpOff: nat, width: nat, s: Strides, b: nat, j1: nat, blank: int,
                     from: seq<real>, k1: nat, ghost l: Lattice, ghost last: nat)
    returns (value: real)
    requires l.Valid() && j1 + 1 < |l.y| && width == |l.lp| && blank == l.blank && k1 < width
    requires HoldsInts(ws, lpOff, l.lp) && HoldsTable(ws, probOff, s, b, l.y, l.classes)
    requires HoldsBeta(from, 0, l, last, j1 + 1)
    ensures value == l.Beta(last, j1, k1)
  {
    hide Lattice.Beta, Offset;
    var current := ws[lpOff + k1].Floor;
    assert current == l.lp[k1];
    value := from[k1];
    if k1 <= width - 2 {
      value := value + from[k1 + 1];
    }
    if k1 <= width - 3 {
      var later := ws[lpOff + (k1 + 2)].Floor;
      assert later == l.lp[k1 + 2];
      if current != blank && current != later {
        value := value + from[k1 + 2];
      }
    }
    BetaNext(l, last, j1, k1);
    value := value * ws[probOff + Offset(s, j1, b, current)];
  }

  /** A row above the last: out of one buffer into the other, scattered by class on the way. */
  method BetaRowGpu(ws: array<real>, probOff: nat, lpOff: nat, base: nat, width: nat, s: Strides, b: nat, j1: nat,
                    blank: int, from: array<real>, to: array<real>, gradTemp: array<real>, ghost l: Lattice,
                    ghost first: nat, ghost last: nat)
    requires l.Valid() && j1 + 1 < |l.y| && width == |l.lp| && blank == l.blank
    requires HoldsInts(ws[..], lpOff, l.lp) && HoldsTable(ws[..], probOff, s, b, l.y, l.classes)
    requires HoldsAlpha(ws[..], base, l, first, j1) && HoldsBeta(from[..], 0, l, last, j1 + 1)
    requires to.Length == width && gradTemp.Length == l.classes
    requires from != to && from != gradTemp && to != gradTemp && to != ws && gradTemp != ws
    modifies to, gradTemp
    ensures HoldsBeta(to[..], 0, l, last, j1)
    ensures forall c: nat :: c < l.classes ==> gradTemp[c] == l.ClassMass(first, last, j1, c, width)
  {
    hide Lattice.Alpha, Lattice.Beta, Lattice.ClassMass;
    hide Offset;
    for c := 0 to gradTemp.Length
      invariant forall d :: 0 <= d < c ==> gradTemp[d] == 0.0
    {
      gradTemp[c] := 0.0;
    }
    for k := 0 to width
      invariant forall i: nat :: width - k <= i < width ==> to[i] == l.Beta(last, j1, i)
      invariant ScatteredFrom(gradTemp[..], l, first, last, j1, width - k)
    {
      var k1 := width - 1 - k;
      var current := ws[lpOff + k1].Floor;
      assert current == l.lp[k1];
      var value := BetaCellGpu(ws[..], probOff, lpOff, width, s, b, j1, blank, from[..], k1, l, last);
      to[k1] := value;
      assert ws[base + k1] == l.Alpha(first, j1, k1);
      value := value * ws[base + k1];
      assert value == l.Alpha(first, j1, k1) * l.Beta(last, j1, k1);
      ghost var before := gradTemp[..];
      gradTemp[current] := gradTemp[current] + value;
      ScatterOne(before, gradTemp[..], value, l, first, last, j1, k1);
    }
    ScatteredAll(gradTemp[..], l, first, last, j1);
  }

  /** Gradients of all rows, the two buffers changing roles by the parity of the step. */
  method EmitRowsGpu(ws: array<real>, probOff: nat, lpOff: nat, alphaOff: nat, width: nat, steps: nat,
                        s: Strides, g: Strides, b: nat, batches: nat, blank: int,
                        betaBuff0: array<real>, betaBuff1: array<real>, gradTemp: array<real>, gradients: array<real>,
                        likelihood: real, softmax: bool, ghost l: Lattice, ghost f: nat)
    requires l.Valid() && Positive(l.y) && |l.y| == steps && width == |l.lp| && blank == l.blank
    requires likelihood == l.Likelihood(f) && likelihood > 0.0
    requires HoldsInts(ws[..], lpOff, l.lp) && HoldsTable(ws[..], probOff, s, b, l.y, l.classes)
    requires AlphaTable(ws[..], alphaOff, l, f) && HoldsBeta(betaBuff0[..], 0, l, f, steps - 1)
    requires betaBuff0.Length == width && betaBuff1.Length == width && gradTemp.Length == l.classes
    requires ws != gradients && gradTemp != ws && gradTemp != gradients
    requires betaBuff0 != betaBuff1 && betaBuff0 != gradTemp && betaBuff1 != gradTemp
    requires betaBuff0 != ws && betaBuff1 != ws && betaBuff0 != gradients && betaBuff1 != gradients
    requires Fits(g, steps, b, l.classes, gradients.Length) && Separate(g, steps, batches, l.classes) && b < batches
    requires forall c: nat :: c < l.classes ==> gradTemp[c] == l.ClassMass(f, f, steps - 1, c, width)
    modifies gradients, betaBuff0, betaBuff1, gradTemp
    ensures HoldsBeta((if steps % 2 == 0 then betaBuff1 else betaBuff0)[..], 0, l, f, 0)
    ensures forall t: nat, c: nat :: t < steps && c < l.classes ==>
              gradients[Offset(g, t, b, c)] == ModeGradient(l, f, f, t, c, softmax)
    ensures forall q :: 0 <= q < gradients.Length && !Touches(g, steps, b, l.classes, q) ==>
              gradients[q] == old(gradients[q])
  {
    hide Offset, Row, ModeGradient;
    hide Lattice.Alpha, Lattice.Beta, Lattice.ClassMass, Lattice.Likelihood;
    EmitRow(gradTemp, gradients, ws, probOff, s, g, b, steps - 1, likelihood, softmax, batches, l, f);
    for j := 1 to steps
      invariant HoldsBeta((if j % 2 == 0 then betaBuff1 else betaBuff0)[..], 0, l, f, steps - j)
      invariant forall t: nat, c: nat :: steps - j <= t < steps && c < l.classes ==>
                  gradients[Offset(g, t, b, c)] == ModeGradient(l, f, f, t, c, softmax)
      invariant forall q :: 0 <= q < gradients.Length && !Touches(g, steps, b, l.classes, q) ==>
                  gradients[q] == old(gradients[q])
    {
      var j1 := steps - 1 - j;
      assert HoldsAlpha(ws[..], alphaOff + Row(width, j1, 0), l, f, j1);
      var from := if j % 2 == 0 then betaBuff1 else betaBuff0;
      var to := if j % 2 == 0 then betaBuff0 else betaBuff1;
      BetaRowGpu(ws, probOff, lpOff, alphaOff + Row(width, j1, 0), width, s, b, j1, blank, from, to, gradTemp, l, f, f);
      EmitRow(gradTemp, gradients, ws, probOff, s, g, b, j1, likelihood, softmax, batches, l, f);
    }
  }

  /** Gradients and beta loss of one batch item. */
  method CtcGradientGpu(ws: array<real>, probOff: nat, lpOff: nat, alphaOff: nat, length: nat, steps: nat, classes: nat,
                        s: Strides, g: Strides, b: nat, batches: nat, repeat: nat, gradients: array<real>,
                        betaLoss: array<real>, blankLb: int, softmax: bool, ghost lab: seq<int>, ghost l: Lattice)
    requires l.Valid() && Positive(l.y) && |l.y| == steps && l.classes == classes
    requires l.blank == ClampBlank(blankLb, classes)
    requires |lab| == length && l.lp == LabelPrime(lab, l.blank) && repeat == Repeats(lab, length)
    requires Feasible(lab, steps)
    requires l.Likelihood(Suppress(lab, steps)) > 0.0
    requires HoldsInts(ws[..], lpOff, l.lp) && HoldsTable(ws[..], probOff, s, b, l.y, classes)
    requires AlphaTable(ws[..], alphaOff, l, Suppress(lab, steps)) && alphaOff + steps * |l.lp| <= ws.Length
    requires ws != gradients && ws != betaLoss && gradients != betaLoss && b < batches && b < betaLoss.Length
    requires Fits(g, steps, b, classes, gradients.Length) && Separate(g, steps, batches, classes)
    modifies gradients, betaLoss
    ensures forall t: nat, c: nat :: t < steps && c < classes ==>
              gradients[Offset(g, t, b, c)]
                == ModeGradient(l, Suppress(lab, steps), Suppress(lab, steps), t, c, softmax)
    ensures betaLoss[b] == l.BetaLoss(Suppress(lab, steps))
    ensures forall q :: 0 <= q < betaLoss.Length && q != b ==> betaLoss[q] == old(betaLoss[q])
    ensures forall q :: 0 <= q < gradients.Length && !Touches(g, steps, b, classes, q) ==>
              gradients[q] == old(gradients[q])
  {
    var width := 2 * length + 1;
    var blank := ClampBlank(blankLb, classes);
    ghost var f := Suppress(lab, steps);
    var likelihood := EndsGpu(ws, alphaOff, l, f, steps, width);
    hide LabelPrime, Offset, Repeats, Row, ModeGradient, ClampBlank;
    hide Lattice.Alpha, Lattice.Beta, Lattice.ClassMass, Lattice.Likelihood;
    var betaBuff0 := new real[width](_ => 0.0);
    var betaBuff1 := new real[width](_ => 0.0);
    var aidx1 := if length + repeat == steps then 1 else 0;
    var gradTemp := new real[classes](_ => 0.0);
    assert HoldsAlpha(ws[..], alphaOff + Row(width, steps - 1, 0), l, f, steps - 1);
    LastRowGpu(ws, probOff, lpOff, alphaOff + Row(width, steps - 1, 0), width, steps, s, b, aidx1, betaBuff0, gradTemp,
               l, f);
    EmitRowsGpu(ws, probOff, lpOff, alphaOff, width, steps, s, g, b, batches, blank, betaBuff0, betaBuff1, gradTemp,
                   gradients, likelihood, softmax, l, f);
    betaLoss[b] := if steps % 2 == 0 then betaBuff1[0] + betaBuff1[1] else betaBuff0[0] + betaBuff0[1];
  }
}
