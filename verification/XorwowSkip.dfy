/** Skipping ahead digit by digit through a table of powers, and the generator that skipping must agree with. */
module XorwowSkip {
  import opened XorwowWords
  import opened XorwowMatrix
  import opened XorwowPower

  function Exp(b: nat, e: nat): nat { if e == 0 then 1 else b * Exp(b, e - 1) }

  lemma {:induction false} ExpAdds(b: nat, i: nat, j: nat)
    ensures Exp(b, i + j) == Exp(b, i) * Exp(b, j)
  {
    if j > 0 {
      ExpAdds(b, i, j - 1);
      assert Exp(b, i + j) == b * (Exp(b, i) * Exp(b, j - 1));
      assert b * (Exp(b, i) * Exp(b, j - 1)) == Exp(b, i) * (b * Exp(b, j - 1));
    }
  }

  lemma {:induction false} ExpOfExp(b: nat, i: nat, j: nat)
    ensures Exp(Exp(b, i), j) == Exp(b, i * j)
  {
    if j > 0 {
      ExpOfExp(b, i, j - 1);
      ExpAdds(b, i, i * (j - 1));
      assert i + i * (j - 1) == i * j;
    } else {
      assert i * 0 == 0;
    }
  }

  lemma {:induction false} ExpGrows(b: nat, i: nat, j: nat)
    requires b >= 1 && i <= j
    ensures 1 <= Exp(b, i) <= Exp(b, j)
  {
    if i < j {
      ExpGrows(b, i, j - 1);
      assert b * Exp(b, j - 1) >= Exp(b, j - 1);
    } else if i > 0 {
      ExpGrows(b, i - 1, j - 1);
      assert b * Exp(b, i - 1) >= 1;
    }
  }

  /** Skip counts have 64 bits. */
  const Width := 64

  /** Entry `k` of the table skips `radix` to the `k` applications of `m`. */
  ghost predicate Table(table: seq<Matrix>, m: Matrix, radix: nat) {
    forall k: nat :: k < |table| ==> ActsAs(table[k], m, Exp(radix, k))
  }

  /** `done` applications are behind, and what is left of the count is worth `radix` to the `idx` each. */
  ghost predicate Progress(done: nat, skp: nat, radix: nat, idx: nat, total: nat) {
    done + skp * Exp(radix, idx) == total
  }

  lemma ProgressStarts(total: nat, radix: nat)
    ensures Progress(0, total, radix, 0, total)
  {
  }

  lemma ProgressEnds(done: nat, radix: nat, idx: nat, total: nat)
    requires Progress(done, 0, radix, idx, total)
    ensures done == total
  {
  }

  lemma DigitSplit(skp: nat, radix: nat, unit: nat)
    requires radix >= 1
    ensures skp % radix * unit + skp / radix * (radix * unit) == skp * unit
  {
    var q, d := skp / radix, skp % radix;
    assert skp == q * radix + d;
    assert (q * radix + d) * unit == q * (radix * unit) + d * unit;
  }

  lemma DigitDone(done: nat, skp: nat, radix: nat, idx: nat, total: nat, next: nat)
    requires radix >= 1 && Progress(done, skp, radix, idx, total) && next == done + skp % radix * Exp(radix, idx)
    ensures Progress(next, skp / radix, radix, idx + 1, total)
  {
    DigitSplit(skp, radix, Exp(radix, idx));
  }

  lemma Halves(skp: nat, radix: nat)
    requires skp >= 1 && radix >= 2
    ensures skp / radix < skp
  {
  }

  /** Applies one table entry once for each unit of the digit. */
  method ApplyDigit(entry: Matrix, digit: nat, v: Vec, ghost m: Matrix, ghost unit: nat, ghost done: nat,
                    ghost start: Vec)
    returns (r: Vec, ghost next: nat)
    requires ActsAs(entry, m, unit) && v == Power(m, done, start)
    ensures next == done + digit * unit && r == Power(m, done + digit * unit, start)
  {
    hide Apply, Power;
    r, next := v, done;
    for i := 0 to digit
      invariant r == Power(m, next, start) && next == done + i * unit
    {
      PowerAdds(m, next, unit, start);
      assert i * unit + unit == (i + 1) * unit;
      next := next + unit;
      r := MatVec(entry, r);
    }
  }

  lemma TableReaches(jump: nat, num: nat)
    requires num * jump >= Width
    ensures Exp(Exp(2, jump), num) >= Exp(2, Width)
  {
    ExpOfExp(2, jump, num);
    assert jump * num == num * jump;
    ExpGrows(2, Width, num * jump);
  }

  /** A table whose entries reach the full width is never left by a 64-bit count. */
  lemma TableSuffices(done: nat, skp: nat, jump: nat, idx: nat, total: nat, num: nat)
    requires num * jump >= Width && total < Exp(2, Width) && skp >= 1 && Progress(done, skp, Exp(2, jump), idx, total)
    ensures idx < num
  {
    TableReaches(jump, num);
    ExpGrows(2, 0, jump);
    if idx >= num { ExpGrows(Exp(2, jump), num, idx); }
    AtLeastOne(skp, Exp(Exp(2, jump), idx));
  }

  lemma AtLeastOne(skp: nat, unit: nat)
    requires skp >= 1
    ensures skp * unit >= unit
  {
  }

  lemma RadixAtLeastTwo(jump: nat)
    requires jump >= 1
    ensures Exp(2, jump) >= 2
  {
    ExpGrows(2, 1, jump);
    assert Exp(2, 1) == 2 * Exp(2, 0);
  }

  /**
   Leaves the vector `skip` applications of `m` further on, for every 64-bit count, with or without the squaring tail.
   */
  method SkipAhead(skip: nat, vector: Vec, table: seq<Matrix>, jump: nat, ghost m: Matrix) returns (r: Vec)
    requires skip < Exp(2, Width) && |table| >= 1 && jump >= 1 && Table(table, m, Exp(2, jump))
    ensures r == Power(m, skip, vector)
  {
    hide Apply, ActsAs, Progress, Exp;
    var radix: nat, enough: bool := Exp(2, jump), |table| * jump >= Width;
    RadixAtLeastTwo(jump);
    r := vector;
    var skp: nat, idx: nat := skip, 0;
    ghost var done: nat := 0;
    ProgressStarts(skip, radix);
    while skp > 0 && (enough || idx < |table|)
      invariant r == Power(m, done, vector) && Progress(done, skp, radix, idx, skip)
      invariant idx <= |table| || enough
      decreases skp
    {
      if enough { TableSuffices(done, skp, jump, idx, skip, |table|); }
      ghost var next: nat;
      r, next := ApplyDigit(table[idx], skp % radix, r, m, Exp(radix, idx), done, vector);
      DigitDone(done, skp, radix, idx, skip, next);
      Halves(skp, radix);
      done := next;
      skp := skp / radix;
      idx := idx + 1;
    }
    if !enough && skp > 0 {
      r := SkipTail(skp, r, table, radix, m, done, vector, skip);
    } else {
      ProgressEnds(done, radix, idx, skip);
    }
  }

  /** Goes on past the table by raising its last entry again and again. */
  method SkipTail(rest: nat, vector: Vec, table: seq<Matrix>, radix: nat, ghost m: Matrix, ghost before: nat,
                  ghost start: Vec, ghost skip: nat)
    returns (r: Vec)
    requires |table| >= 1 && radix >= 2 && Table(table, m, radix)
    requires vector == Power(m, before, start) && Progress(before, rest, radix, |table|, skip)
    ensures r == Power(m, skip, start)
  {
    hide Apply, Power, ActsAs, Progress;
    var a, b := new Vec[160](_ => Zero), new Vec[160](_ => Zero);
    CopyInto(a, table[|table| - 1]);
    r := vector;
    var skp: nat := rest;
    ghost var idx: nat, done: nat := |table|, before;
    while skp > 0
      invariant idx >= 1 && ActsAs(a[..], m, Exp(radix, idx - 1))
      invariant r == Power(m, done, start) && Progress(done, skp, radix, idx, skip)
      decreases skp
    {
      MatPow(b, a[..], radix);
      ActsOfActs(b[..], a[..], m, radix, Exp(radix, idx - 1));
      CopyInto(a, b[..]);
      ghost var next: nat;
      r, next := ApplyDigit(a[..], skp % radix, r, m, Exp(radix, idx), done, start);
      DigitDone(done, skp, radix, idx, skip, next);
      Halves(skp, radix);
      done := next;
      skp := skp / radix;
      idx := idx + 1;
    }
    ProgressEnds(done, radix, idx, skip);
  }

  method CopyInto(a: array<Vec>, m: Matrix)
    requires a.Length == 160
    modifies a
    ensures a[..] == m
  {
    for i := 0 to 160
      invariant forall k :: 0 <= k < i ==> a[k] == m[k]
    {
      a[i] := m[i];
    }
  }

  /** Skips compose: the order and the split of the count do not matter. */
  lemma SkipsCompose(m: Matrix, a: nat, b: nat, v: Vec)
    ensures Power(m, b, Power(m, a, v)) == Power(m, a + b, v) == Power(m, a, Power(m, b, v))
  {
    PowerAdds(m, a, b, v);
    PowerAdds(m, b, a, v);
  }
}
