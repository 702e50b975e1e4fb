/** 32-bit words, bit by bit: the laws of exclusive-or and of masks with a single bit. */
module XorwowWords {
  function Xor(a: bv32, b: bv32): bv32 { a ^ b }

  function And(a: bv32, b: bv32): bv32 { a & b }

  function Double(m: bv32): bv32 { m << 1 }

  /** All bits below a single bit. */
  function Below(m: bv32): bv32 { m - 1 }

  predicate Set(a: bv32, m: bv32) { And(a, m) != 0 }

  predicate Single(m: bv32) { m & (m - 1) == 0 }

  /** One set bit, shifted left `j` times. */
  function Mask(j: nat): bv32 { if j == 0 then 1 else Double(Mask(j - 1)) }

  lemma XorCommutes(a: bv32, b: bv32)
    ensures Xor(a, b) == Xor(b, a)
  {
  }

  lemma XorAssociates(a: bv32, b: bv32, c: bv32)
    ensures Xor(Xor(a, b), c) == Xor(a, Xor(b, c))
  {
  }

  lemma XorNeutral(a: bv32)
    ensures Xor(a, 0) == a && Xor(0, a) == a && Xor(a, a) == 0
  {
  }

  lemma AndCommutes(a: bv32, b: bv32)
    ensures And(a, b) == And(b, a)
  {
  }

  lemma AndDistributes(a: bv32, b: bv32, m: bv32)
    ensures And(m, Xor(a, b)) == Xor(And(m, a), And(m, b))
  {
  }

  lemma AndSingle(a: bv32, m: bv32)
    requires Single(m)
    ensures And(a, m) == 0 || And(a, m) == m
  {
  }

  lemma AndEnds(a: bv32)
    ensures And(a, 0) == 0 && And(0, a) == 0 && And(a, Below(0)) == a && Below(1) == 0
  {
  }

  lemma SingleDoubles(m: bv32)
    requires Single(m)
    ensures Single(Double(m)) && Xor(Below(m), m) == Below(Double(m))
  {
  }

  lemma OneIsSingle()
    ensures Single(1)
  {
  }

  lemma {:induction false} MaskIsSingle(j: nat)
    ensures Single(Mask(j))
  {
    hide Single, Double;
    if j == 0 { OneIsSingle(); } else {
      MaskIsSingle(j - 1);
      SingleDoubles(Mask(j - 1));
    }
  }

  /** A masked bit of an exclusive-or is set if it is set in one of the two. */
  lemma MaskedXor(a: bv32, b: bv32, m: bv32)
    requires Single(m)
    ensures Set(Xor(a, b), m) <==> (Set(a, m) != Set(b, m))
  {
    hide Xor, And, Single;
    AndSingle(a, m);
    AndSingle(b, m);
    AndDistributes(a, b, m);
    AndCommutes(Xor(a, b), m);
    AndCommutes(a, m);
    AndCommutes(b, m);
    XorNeutral(m);
    XorNeutral(0);
  }

  /** The lowest `n` bits of a word, one by one. */
  function LowBits(a: bv32, n: nat): bv32 {
    if n == 0 then 0 else if Set(a, Mask(n - 1)) then Xor(LowBits(a, n - 1), Mask(n - 1)) else LowBits(a, n - 1)
  }

  lemma {:induction false} LowBitsAre(a: bv32, n: nat)
    ensures LowBits(a, n) == And(a, Below(Mask(n)))
  {
    hide Xor, And, Single, Below, Double;
    if n > 0 {
      var m := Mask(n - 1);
      LowBitsAre(a, n - 1);
      MaskIsSingle(n - 1);
      SingleDoubles(m);
      AndSingle(a, m);
      AndDistributes(Below(m), m, a);
      XorNeutral(And(a, Below(m)));
    } else {
      AndEnds(a);
    }
  }

  lemma DoubleFour(m: bv32)
    ensures Double(Double(Double(Double(m)))) == m << 4
  {
  }

  lemma MaskFour(j: nat, m: bv32)
    requires Mask(j) == m
    ensures Mask(j + 4) == m << 4
  {
    hide Double;
    DoubleFour(m);
    assert Mask(j + 1) == Double(m) && Mask(j + 2) == Double(Double(m)) && Mask(j + 3) == Double(Double(Double(m)));
  }

  lemma MaskRunsOut()
    ensures Mask(32) == 0
  {
    hide Double;
    assert Mask(0) == 1;
    MaskFour(0, 1);
    MaskFour(4, 0x10);
    MaskFour(8, 0x100);
    MaskFour(12, 0x1000);
    MaskFour(16, 0x10000);
    MaskFour(20, 0x100000);
    MaskFour(24, 0x1000000);
    MaskFour(28, 0x10000000);
  }

  /** All 32 bits make up the word. */
  lemma WordIsItsBits(a: bv32)
    ensures LowBits(a, 32) == a
  {
    hide And, Below;
    LowBitsAre(a, 32);
    MaskRunsOut();
    AndEnds(a);
  }
}
