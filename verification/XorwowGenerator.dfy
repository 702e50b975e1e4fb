/** The generator itself, its tables, and its initialisation: skipping is stepping many times. */
module XorwowGenerator {
  import opened XorwowWords
  import opened XorwowMatrix
  import opened XorwowPower
  import opened XorwowSkip

  // ---- One step ----

  function ShiftLeft(a: bv32): bv32 { a << 1 }

  function ShiftFour(a: bv32): bv32 { a << 4 }

  function ShiftDown(a: bv32): bv32 { a >> 2 }

  function Fresh(x: bv32, v: bv32): bv32 {
    var t := Xor(x, ShiftDown(x));
    Xor(Xor(v, ShiftFour(v)), Xor(t, ShiftLeft(t)))
  }

  /** The shift registers one step on. */
  function NextVec(s: Vec): Vec { Vec(s.y, s.z, s.w, s.v, Fresh(s.x, s.v)) }

  function Next(): Vec -> Vec { s => NextVec(s) }

  lemma LeftDistributes(a: bv32, b: bv32)
    ensures ShiftLeft(Xor(a, b)) == Xor(ShiftLeft(a), ShiftLeft(b))
  {
  }

  lemma FourDistributes(a: bv32, b: bv32)
    ensures ShiftFour(Xor(a, b)) == Xor(ShiftFour(a), ShiftFour(b))
  {
  }

  lemma DownDistributes(a: bv32, b: bv32)
    ensures ShiftDown(Xor(a, b)) == Xor(ShiftDown(a), ShiftDown(b))
  {
  }

  lemma ShiftsOfZero()
    ensures ShiftLeft(0) == 0 && ShiftFour(0) == 0 && ShiftDown(0) == 0
  {
  }

  lemma Rearrange(a: bv32, b: bv32, c: bv32, d: bv32)
    ensures Xor(Xor(a, b), Xor(c, d)) == Xor(Xor(a, c), Xor(b, d))
  {
    hide Xor;
    XorAssociates(a, b, Xor(c, d));
    XorAssociates(b, c, d);
    XorCommutes(b, c);
    XorAssociates(c, b, d);
    XorAssociates(a, c, Xor(b, d));
  }

  lemma FreshLinear(x: bv32, v: bv32, x': bv32, v': bv32)
    ensures Fresh(Xor(x, x'), Xor(v, v')) == Xor(Fresh(x, v), Fresh(x', v'))
  {
    hide Xor, ShiftLeft, ShiftFour, ShiftDown;
    var t, t' := Xor(x, ShiftDown(x)), Xor(x', ShiftDown(x'));
    DownDistributes(x, x');
    FourDistributes(v, v');
    LeftDistributes(t, t');
    Rearrange(x, x', ShiftDown(x), ShiftDown(x'));
    Rearrange(v, v', ShiftFour(v), ShiftFour(v'));
    Rearrange(t, t', ShiftLeft(t), ShiftLeft(t'));
    Rearrange(Xor(v, ShiftFour(v)), Xor(v', ShiftFour(v')), Xor(t, ShiftLeft(t)), Xor(t', ShiftLeft(t')));
  }

  lemma NextIsLinear()
    ensures Linear(Next())
  {
    hide Xor, Fresh;
    NextOfZero();
    forall u: Vec, v: Vec ensures Next()(u.Add(v)) == Next()(u).Add(Next()(v)) {
      FreshLinear(u.x, u.v, v.x, v.v);
    }
  }

  lemma NextOfZero()
    ensures NextVec(Zero) == Zero
  {
    hide Xor, ShiftLeft, ShiftFour, ShiftDown;
    ShiftsOfZero();
    XorNeutral(0);
  }

  /** `n` steps of the registers. */
  function Steps(n: nat, s: Vec): Vec { if n == 0 then s else NextVec(Steps(n - 1, s)) }

  function OneStep(): Matrix { MatrixOf(Next()) }

  lemma {:induction false} StepsArePowers(n: nat, s: Vec)
    ensures Power(OneStep(), n, s) == Steps(n, s)
  {
    hide Apply, NextVec;
    if n > 0 {
      StepsArePowers(n - 1, s);
      NextIsLinear();
      MatrixOfApplies(Next(), Steps(n - 1, s));
      NextAt(Steps(n - 1, s));
    }
  }

  lemma NextAt(s: Vec)
    ensures Next()(s) == NextVec(s)
  {
  }

  // ---- Tables ----

  /** One step from every single bit, row by row. */
  method SkipOneStep() returns (matrix: array<Vec>)
    ensures fresh(matrix) && matrix.Length == 160 && matrix[..] == OneStep()
  {
    hide Unit, NextVec, Mask;
    matrix := new Vec[160](_ => Zero);
    for i := 0 to 5
      invariant forall k :: 0 <= k < i * 32 ==> matrix[k] == NextVec(Unit(k))
    {
      for j := 0 to 32
        invariant forall k :: 0 <= k < i * 32 + j ==> matrix[k] == NextVec(Unit(k))
      {
        var m := Mask(j);
        UnitAt(i, j);
        var bit := Vec(if i == 0 then m else 0, if i == 1 then m else 0, if i == 2 then m else 0,
                       if i == 3 then m else 0, if i == 4 then m else 0);
        matrix[i * 32 + j] := NextVec(bit);
      }
    }
    forall k | 0 <= k < 160 ensures matrix[k] == OneStep()[k] { NextAt(Unit(k)); }
  }

  const SequenceJump := 67

  /** How many steps the first entry of a table skips. */
  function Stride(sequence: bool): nat { if sequence then Exp(2, SequenceJump) else 1 }

  /** Entry `k` skips `Stride * 2^(jump * k)` steps. */
  method GenerateTable(sequence: bool, num: nat, jump: nat) returns (table: seq<Matrix>, ghost base: Matrix)
    requires num >= 1
    ensures |table| == num && ActsAs(base, OneStep(), Stride(sequence)) && Table(table, base, Exp(2, jump))
  {
    hide ActsAs, OneStep, Exp, Identity, Product;
    var a := SkipOneStep();
    var b := new Vec[160](_ => Zero);
    ActsStart(OneStep());
    if sequence {
      MatPow(b, a[..], Exp(2, SequenceJump / 2));
      ghost var half := b[..];
      ActsOfActs(b[..], a[..], OneStep(), Exp(2, SequenceJump / 2), 1);
      MatPow(a, b[..], Exp(2, SequenceJump - SequenceJump / 2));
      ActsOfActs(a[..], half, OneStep(), Exp(2, SequenceJump - SequenceJump / 2), Exp(2, SequenceJump / 2) * 1);
      ExpAdds(2, SequenceJump - SequenceJump / 2, SequenceJump / 2);
    }
    base := a[..];
    ActsStart(base);
    ExpNone(Exp(2, jump));
    table := [a[..]];
    for k := 1 to num
      invariant |table| == k && Table(table, base, Exp(2, jump)) && ActsAs(a[..], base, Exp(Exp(2, jump), k - 1))
    {
      CopyInto(b, a[..]);
      ghost var last := b[..];
      MatPow(a, b[..], Exp(2, jump));
      ActsOfActs(a[..], last, base, Exp(2, jump), Exp(Exp(2, jump), k - 1));
      ExpStep(Exp(2, jump), k);
      table := table + [a[..]];
    }
  }

  lemma ExpNone(b: nat)
    ensures Exp(b, 0) == 1
  {
  }

  lemma ExpStep(b: nat, k: nat)
    requires k >= 1
    ensures Exp(b, k) == b * Exp(b, k - 1)
  {
  }

  /** Skipping through a generated table is stepping. */
  lemma SkippingIsStepping(base: Matrix, sequence: bool, n: nat, s: Vec)
    requires ActsAs(base, OneStep(), Stride(sequence))
    ensures Power(base, n, s) == Steps(n * Stride(sequence), s)
  {
    hide OneStep, Stride, Apply, Power, Steps, ActsAs;
    PowerOfPower(base, OneStep(), Stride(sequence), n, s);
    StepsArePowers(n * Stride(sequence), s);
  }

  // ---- The state ----

  const Modulus := 0x1_0000_0000

  /** What `n` steps make of the counter word. */
  function Counted(n: nat, d: nat): nat { (d + n * 362437) % Modulus }

  /** Registers and counter of one stream of numbers. */
  class Prng {
    var s: Vec
    var d: nat

    constructor () { s := Zero; d := 0; }

    /** One number of the stream. */
    method Draw() returns (number: nat)
      requires d < Modulus
      modifies this
      ensures s == Steps(1, old(s)) && d == Counted(1, old(d)) && number == (d + s.v as nat) % Modulus
    {
      hide Fresh;
      assert Steps(1, s) == NextVec(Steps(0, s));
      s := Vec(s.y, s.z, s.w, s.v, Fresh(s.x, s.v));
      d := (d + 362437) % Modulus;
      number := (d + s.v as nat) % Modulus;
    }

    /** Seeds the stream, skips `subsequence` long strides and `offset` single steps. */
    method Init(low: bv32, high: bv32, subsequence: nat, offset: nat, sequenceTable: seq<Matrix>, table: seq<Matrix>,
                jump: nat, ghost sequenceBase: Matrix, ghost base: Matrix)
      requires subsequence < Exp(2, Width) && offset < Exp(2, Width) && jump >= 1 && |sequenceTable| >= 1
      requires |table| >= 1
      requires ActsAs(sequenceBase, OneStep(), Stride(true)) && Table(sequenceTable, sequenceBase, Exp(2, jump))
      requires ActsAs(base, OneStep(), Stride(false)) && Table(table, base, Exp(2, jump))
      modifies this
      ensures s == Steps(subsequence * Stride(true) + offset, Seeded(low, high))
      ensures d == Counted(subsequence * Stride(true) + offset, SeededCounter(low, high))
    {
      hide Seeded, SeededCounter, OneStep, ActsAs, Power, Steps, Stride, Exp, Table;
      s := Seeded(low, high);
      d := SeededCounter(low, high);
      SkippingIsStepping(sequenceBase, true, subsequence, s);
      s := SkipAhead(subsequence, s, sequenceTable, jump, sequenceBase);
      SkippingIsStepping(base, false, offset, s);
      SingleStride(offset);
      StepsAdd(subsequence * Stride(true), offset, Seeded(low, high));
      s := SkipAhead(offset, s, table, jump, base);
      d := (d + offset % Modulus * 362437) % Modulus;
      CounterAgrees(subsequence, offset, SeededCounter(low, high));
    }
  }

  /** How the two halves of the seed are mixed into the registers. */
  function Seeded(low: bv32, high: bv32): Vec {
    var t0, t1 := 1228688033 * (low ^ 0x2c7f967f), 2073658381 * (high ^ 0xa03697cb);
    Vec(123456789 + t0, 362436069 ^ t0, 521288629 + t1, 88675123 ^ t1, 5783321 + t0)
  }

  function SeededCounter(low: bv32, high: bv32): nat {
    var t0: bv32, t1: bv32 := 1228688033 * (low ^ 0x2c7f967f), 2073658381 * (high ^ 0xa03697cb);
    (6615241 + (t1 + t0)) as nat
  }

  lemma SingleStride(n: nat)
    ensures n * Stride(false) == n
  {
  }

  lemma {:induction false} StepsAdd(a: nat, b: nat, s: Vec)
    ensures Steps(a + b, s) == Steps(b, Steps(a, s))
  {
    hide NextVec;
    if b > 0 { StepsAdd(a, b - 1, s); }
  }

  /** The long stride is a whole number of turns of the counter, so leaving the counter alone is right. */
  lemma CounterAgrees(subsequence: nat, offset: nat, d: nat)
    ensures (d + offset % Modulus * 362437) % Modulus == Counted(subsequence * Stride(true) + offset, d)
  {
    hide Stride, Exp;
    StrideIsTurns();
    CounterSplit(subsequence * Exp(2, 35), offset / Modulus, offset % Modulus);
    assert offset == offset / Modulus * Modulus + offset % Modulus;
    Scaled(subsequence, Exp(2, 35));
    Wraps(d + offset % Modulus * 362437, (subsequence * Exp(2, 35) + offset / Modulus) * 362437);
  }

  lemma Scaled(a: nat, b: nat)
    ensures a * (b * Modulus) == a * b * Modulus
  {
  }

  lemma StrideIsTurns()
    ensures Stride(true) == Exp(2, 35) * Modulus
  {
    hide Exp;
    ExpAdds(2, 35, 32);
    ExpAdds(2, 16, 16);
    ExpAdds(2, 8, 8);
    ByteRange();
  }

  lemma ByteRange()
    ensures Exp(2, 8) == 256
  {
  }

  lemma CounterSplit(a: nat, q: nat, r: nat)
    ensures (a * Modulus + (q * Modulus + r)) * 362437 == r * 362437 + (a + q) * 362437 * Modulus
  {
  }

  lemma Wraps(a: nat, k: nat)
    ensures (a + k * Modulus) % Modulus == a % Modulus
  {
  }
}
