/** What a step and a seed mix, bit by bit and word by word. */
module XorwowMixing {
  import opened XorwowWords
  import opened XorwowMatrix
  import opened XorwowGenerator

  // ---- One step, bit by bit ----

  /** Bit `j` of a word; there is none above bit 31. */
  predicate Bit(a: bv32, j: bv32) { j < 32 && (a >> j) & 1 == 1 }

  lemma BitXor(a: bv32, b: bv32, j: bv32)
    requires j < 32
    ensures Bit(Xor(a, b), j) == (Bit(a, j) != Bit(b, j))
  {
  }

  lemma BitLeft(a: bv32, j: bv32)
    requires j < 32
    ensures Bit(ShiftLeft(a), j) == (j >= 1 && Bit(a, j - 1))
  {
  }

  lemma BitFour(a: bv32, j: bv32)
    requires j < 32
    ensures Bit(ShiftFour(a), j) == (j >= 4 && Bit(a, j - 4))
  {
  }

  lemma BitDown(a: bv32, j: bv32)
    requires j < 32
    ensures Bit(ShiftDown(a), j) == Bit(a, j + 2)
  {
  }

  lemma BitDownBefore(a: bv32, j: bv32)
    requires 1 <= j < 32
    ensures Bit(ShiftDown(a), j - 1) == Bit(a, j + 1)
  {
  }

  function Twice(x: bv32): bv32 { Xor(x, ShiftDown(x)) }

  /** The part of the new word that comes from `x` before it is doubled. */
  lemma BitTwice(x: bv32, j: bv32)
    requires j < 32
    ensures Bit(Twice(x), j) == (Bit(x, j) != Bit(x, j + 2))
  {
    BitDown(x, j);
    BitXor(x, ShiftDown(x), j);
    hide Bit, Xor, ShiftDown;
  }

  lemma BitTwiceBefore(x: bv32, j: bv32)
    requires 1 <= j < 32
    ensures Bit(Twice(x), j - 1) == (Bit(x, j - 1) != Bit(x, j + 1))
  {
    hide Bit, Xor, ShiftDown;
    BitDownBefore(x, j);
    Earlier(j);
    BitXor(x, ShiftDown(x), j - 1);
  }

  lemma Earlier(j: bv32)
    requires 1 <= j < 32
    ensures j - 1 < 32
  {
  }

  /**
   Each bit of the new word is the exclusive-or of the old bits it depends on: its own and the fourth one below in `v`,
   and in `x` its own, the second one above, and, but for bit 0, the ones next to it.
   */
  lemma FreshBits(x: bv32, v: bv32, j: bv32)
    requires j < 32
    ensures Bit(Fresh(x, v), j)
         == ((((Bit(v, j) != (j >= 4 && Bit(v, j - 4))) != Bit(x, j)) != Bit(x, j + 2))
             != (j >= 1 && (Bit(x, j - 1) != Bit(x, j + 1))))
  {
    hide Bit, Xor, ShiftLeft, ShiftFour, ShiftDown;
    var t := Twice(x);
    assert Fresh(x, v) == Xor(Xor(v, ShiftFour(v)), Xor(t, ShiftLeft(t)));
    hide Twice;
    BitXor(Xor(v, ShiftFour(v)), Xor(t, ShiftLeft(t)), j);
    BitXor(v, ShiftFour(v), j);
    BitXor(t, ShiftLeft(t), j);
    BitFour(v, j);
    BitLeft(t, j);
    BitTwice(x, j);
    if j >= 1 { BitTwiceBefore(x, j); }
  }

  /** The other four words move up by one place. */
  lemma WordsMove(s: Vec, j: bv32)
    requires j < 32
    ensures Bit(NextVec(s).x, j) == Bit(s.y, j) && Bit(NextVec(s).y, j) == Bit(s.z, j)
    ensures Bit(NextVec(s).z, j) == Bit(s.w, j) && Bit(NextVec(s).w, j) == Bit(s.v, j)
    ensures Bit(NextVec(s).v, j)
         == ((((Bit(s.v, j) != (j >= 4 && Bit(s.v, j - 4))) != Bit(s.x, j)) != Bit(s.x, j + 2))
             != (j >= 1 && (Bit(s.x, j - 1) != Bit(s.x, j + 1))))
  {
    FreshBits(s.x, s.v, j);
    hide Fresh, Bit;
  }

  // ---- The seed ----

  /** Only the low half of the seed reaches `x`, `y` and `v`, and only the high half reaches `z` and `w`. */
  lemma SeedReaches(low: bv32, high: bv32, low': bv32, high': bv32)
    ensures var s, t := Seeded(low, high), Seeded(low, high'); s.x == t.x && s.y == t.y && s.v == t.v
    ensures var s, t := Seeded(low, high), Seeded(low', high); s.z == t.z && s.w == t.w
  {
  }

  /** The two factors are odd, so what is made of either half can be undone: it is made one to one. */
  lemma LowUndone(masked: bv32)
    ensures 3726514529 * (1228688033 * masked) == masked
  {
  }

  lemma HighUndone(masked: bv32)
    ensures 519072453 * (2073658381 * masked) == masked
  {
  }

  /** The first step from the seed zero, and the first number it gives. */
  lemma FirstNumber()
    ensures Steps(1, Seeded(0, 0)) == Vec(1326976570, 2842664196, 2400481916, 1524275960, 2106184227)
    ensures Counted(1, SeededCounter(0, 0)) == 3846845884
    ensures (3846845884 + 2106184227) % 0x1_0000_0000 == 1658062815
  {
    SeedSamples();
    FreshSample();
    hide Seeded, SeededCounter, Fresh;
    assert Steps(1, Seeded(0, 0)) == NextVec(Steps(0, Seeded(0, 0)));
  }

  lemma FreshSample()
    ensures Fresh(1641949428, 1524275960) == 2106184227
  {
  }

  /** The registers and the counter of two seeds. */
  lemma SeedSamples()
    ensures Seeded(0, 0) == Vec(1641949428, 1326976570, 2842664196, 2400481916, 1524275960)
    ensures SeededCounter(0, 0) == 3846483447
    ensures Seeded(0x12345678, 0x9abcdef0) == Vec(455448444, 106143618, 2199740340, 1631727820, 337774976)
    ensures SeededCounter(0x12345678, 0x9abcdef0) == 2017058607
  {
  }
}
