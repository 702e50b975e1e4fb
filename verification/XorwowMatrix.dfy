/** The 160-bit part of the generator state as a vector over the two-element field, and matrices acting on it. */
module XorwowMatrix {
  import opened XorwowWords

  /** The five shift-register words of the state. */
  datatype Vec = Vec(x: bv32, y: bv32, z: bv32, w: bv32, v: bv32) {
    function Add(o: Vec): Vec { Vec(Xor(x, o.x), Xor(y, o.y), Xor(z, o.z), Xor(w, o.w), Xor(v, o.v)) }

    function Word(i: nat): bv32 {
      if i == 0 then x else if i == 1 then y else if i == 2 then z else if i == 3 then w else v
    }
  }

  const Zero: Vec := Vec(0, 0, 0, 0, 0)

  /** Bit `n` counts through the words, 32 bits each. */
  predicate Bit(v: Vec, n: nat) { Set(v.Word(n / 32), Mask(n % 32)) }

  /** 160 rows of five words. */
  type Matrix = m: seq<Vec> | |m| == 160 witness seq(160, _ => Zero)

  /** The rows selected by the first `n` bits, added up. */
  function Selected(m: Matrix, v: Vec, n: nat): Vec
    requires n <= 160
  {
    if n == 0 then Zero
    else if Bit(v, n - 1) then Selected(m, v, n - 1).Add(m[n - 1]) else Selected(m, v, n - 1)
  }

  function Apply(m: Matrix, v: Vec): Vec { Selected(m, v, 160) }

  lemma AddCommutes(a: Vec, b: Vec)
    ensures a.Add(b) == b.Add(a)
  {
    hide Xor;
    XorCommutes(a.x, b.x);
    XorCommutes(a.y, b.y);
    XorCommutes(a.z, b.z);
    XorCommutes(a.w, b.w);
    XorCommutes(a.v, b.v);
  }

  lemma AddAssociates(a: Vec, b: Vec, c: Vec)
    ensures a.Add(b).Add(c) == a.Add(b.Add(c))
  {
    hide Xor;
    XorAssociates(a.x, b.x, c.x);
    XorAssociates(a.y, b.y, c.y);
    XorAssociates(a.z, b.z, c.z);
    XorAssociates(a.w, b.w, c.w);
    XorAssociates(a.v, b.v, c.v);
  }

  lemma AddNeutral(a: Vec)
    ensures a.Add(Zero) == a && Zero.Add(a) == a && a.Add(a) == Zero
  {
    hide Xor;
    XorNeutral(a.x);
    XorNeutral(a.y);
    XorNeutral(a.z);
    XorNeutral(a.w);
    XorNeutral(a.v);
  }

  lemma BitOfSum(u: Vec, v: Vec, n: nat)
    ensures Bit(u.Add(v), n) <==> (Bit(u, n) != Bit(v, n))
  {
    hide Xor, Set, Mask, Single;
    MaskIsSingle(n % 32);
    MaskedXor(u.Word(n / 32), v.Word(n / 32), Mask(n % 32));
  }

  lemma BitOfZero(n: nat)
    ensures !Bit(Zero, n)
  {
    hide And, Mask, Below;
    AndEnds(Mask(n % 32));
  }

  // ---- Matrices act linearly ----

  /** A row added to one sum, or to both. */
  lemma AddRow(a: Vec, b: Vec, r: Vec)
    ensures a.Add(r).Add(b) == a.Add(b).Add(r) && a.Add(b.Add(r)) == a.Add(b).Add(r)
    ensures a.Add(r).Add(b.Add(r)) == a.Add(b)
  {
    hide Vec.Add;
    AddAssociates(a, r, b);
    AddCommutes(r, b);
    AddAssociates(a, b, r);
    AddAssociates(a.Add(r), b, r);
    AddAssociates(a.Add(b), r, r);
    AddNeutral(r);
    AddNeutral(a.Add(b));
  }

  lemma {:induction false} SelectedLinear(m: Matrix, u: Vec, v: Vec, n: nat)
    requires n <= 160
    ensures Selected(m, u.Add(v), n) == Selected(m, u, n).Add(Selected(m, v, n))
  {
    hide Vec.Add, Bit;
    if n == 0 {
      AddNeutral(Zero);
    } else {
      SelectedLinear(m, u, v, n - 1);
      BitOfSum(u, v, n - 1);
      AddRow(Selected(m, u, n - 1), Selected(m, v, n - 1), m[n - 1]);
    }
  }

  /** Applying a matrix to a sum adds what it gives on the parts. */
  lemma ApplyLinear(m: Matrix, u: Vec, v: Vec)
    ensures Apply(m, u.Add(v)) == Apply(m, u).Add(Apply(m, v))
  {
    SelectedLinear(m, u, v, 160);
  }

  lemma {:induction false} SelectedZero(m: Matrix, n: nat)
    requires n <= 160
    ensures Selected(m, Zero, n) == Zero
  {
    hide Vec.Add, Bit;
    if n > 0 {
      BitOfZero(n - 1);
      SelectedZero(m, n - 1);
    }
  }

  /** Row by row, `a` followed by `b`. */
  function Product(a: Matrix, b: Matrix): Matrix { seq(160, k requires 0 <= k < 160 => Apply(b, a[k])) }

  lemma {:induction false} SelectedProduct(a: Matrix, b: Matrix, v: Vec, n: nat)
    requires n <= 160
    ensures Selected(Product(a, b), v, n) == Apply(b, Selected(a, v, n))
  {
    hide Vec.Add, Bit;
    if n == 0 {
      SelectedZero(b, 160);
    } else {
      SelectedProduct(a, b, v, n - 1);
      ApplyLinear(b, Selected(a, v, n - 1), a[n - 1]);
    }
  }

  /** Applying a product is applying one matrix after the other. */
  lemma ProductApplies(a: Matrix, b: Matrix, v: Vec)
    ensures Apply(Product(a, b), v) == Apply(b, Apply(a, v))
  {
    hide Vec.Add, Bit;
    SelectedProduct(a, b, v, 160);
  }

  // ---- The identity ----

  /** The vector whose only set bit is bit `k`. */
  function Unit(k: nat): Vec {
    var i, m := k / 32, Mask(k % 32);
    Vec(UnitWord(0, i, m), UnitWord(1, i, m), UnitWord(2, i, m), UnitWord(3, i, m), UnitWord(4, i, m))
  }

  function Identity(): Matrix { seq(160, k requires 0 <= k < 160 => Unit(k)) }

  /** The words below the one that bit `n` is in, and the lowest bits of that one. */
  function Partly(v: Vec, n: nat): Vec {
    var i, j := n / 32, n % 32;
    Vec(PartWord(v.x, 0, i, j), PartWord(v.y, 1, i, j), PartWord(v.z, 2, i, j), PartWord(v.w, 3, i, j),
        PartWord(v.v, 4, i, j))
  }

  function PartWord(a: bv32, own: nat, i: nat, j: nat): bv32 {
    if own < i then a else if own == i then LowBits(a, j) else 0
  }

  function UnitWord(own: nat, i: nat, m: bv32): bv32 { if own == i then m else 0 }

  lemma PartWordNext(a: bv32, own: nat, i: nat, j: nat, i': nat, j': nat, bit: bool)
    requires j < 32 && (if j == 31 then i' == i + 1 && j' == 0 else i' == i && j' == j + 1)
    requires own == i ==> (bit <==> Set(a, Mask(j)))
    ensures PartWord(a, own, i', j')
         == if bit then Xor(PartWord(a, own, i, j), UnitWord(own, i, Mask(j))) else PartWord(a, own, i, j)
  {
    hide Xor, Set, Mask;
    XorNeutral(PartWord(a, own, i, j));
    if j == 31 { WordIsItsBits(a); }
    assert LowBits(a, j + 1) == if Set(a, Mask(j)) then Xor(LowBits(a, j), Mask(j)) else LowBits(a, j);
    assert LowBits(a, 0) == 0;
  }

  lemma PartlyNext(v: Vec, n: nat)
    requires n < 160
    ensures Partly(v, n + 1) == if Bit(v, n) then Partly(v, n).Add(Unit(n)) else Partly(v, n)
  {
    hide Xor, Set, Mask, LowBits, PartWord, UnitWord, Bit;
    var i, j := n / 32, n % 32;
    var bit := Bit(v, n);
    NextPlace(n);
    BitIs(v, n);
    PartWordNext(v.x, 0, i, j, (n + 1) / 32, (n + 1) % 32, bit);
    PartWordNext(v.y, 1, i, j, (n + 1) / 32, (n + 1) % 32, bit);
    PartWordNext(v.z, 2, i, j, (n + 1) / 32, (n + 1) % 32, bit);
    PartWordNext(v.w, 3, i, j, (n + 1) / 32, (n + 1) % 32, bit);
    PartWordNext(v.v, 4, i, j, (n + 1) / 32, (n + 1) % 32, bit);
  }

  lemma BitIs(v: Vec, n: nat)
    ensures Bit(v, n) <==> Set(v.Word(n / 32), Mask(n % 32))
  {
    hide Set, Mask;
  }

  lemma NextPlace(n: nat)
    ensures if n % 32 == 31 then (n + 1) / 32 == n / 32 + 1 && (n + 1) % 32 == 0
            else (n + 1) / 32 == n / 32 && (n + 1) % 32 == n % 32 + 1
  {
  }

  lemma {:induction false} SelectedIdentity(v: Vec, n: nat)
    requires n <= 160
    ensures Selected(Identity(), v, n) == Partly(v, n)
  {
    hide Vec.Add, Bit, Partly, Unit;
    if n > 0 {
      SelectedIdentity(v, n - 1);
      PartlyNext(v, n - 1);
    } else {
      PartlyEnds(v);
    }
  }

  lemma PartlyEnds(v: Vec)
    ensures Partly(v, 0) == Zero && Partly(v, 160) == v
  {
    assert LowBits(v.x, 0) == 0;
  }

  lemma IdentityApplies(v: Vec)
    ensures Apply(Identity(), v) == v
  {
    hide Vec.Add, Bit, Unit, Partly;
    SelectedIdentity(v, 160);
    PartlyEnds(v);
  }

  // ---- Linear maps and their matrices ----

  ghost predicate Linear(f: Vec -> Vec) {
    f(Zero) == Zero && forall u: Vec, v: Vec :: f(u.Add(v)) == f(u).Add(f(v))
  }

  /** The matrix whose rows are what `f` makes of the single bits. */
  function MatrixOf(f: Vec -> Vec): Matrix {
    var rows := seq(160, k requires 0 <= k < 160 => f(Unit(k)));
    assert |rows| == 160;
    rows
  }

  lemma LinearAt(f: Vec -> Vec, u: Vec, v: Vec)
    requires Linear(f)
    ensures f(Zero) == Zero && f(u.Add(v)) == f(u).Add(f(v))
  {
    hide Vec.Add;
  }

  lemma {:induction false} SelectedMatrixOf(f: Vec -> Vec, v: Vec, n: nat)
    requires n <= 160 && Linear(f)
    ensures Selected(MatrixOf(f), v, n) == f(Selected(Identity(), v, n))
  {
    hide Vec.Add, Bit, Unit, Linear;
    if n > 0 {
      SelectedMatrixOf(f, v, n - 1);
      LinearAt(f, Selected(Identity(), v, n - 1), Unit(n - 1));
    } else {
      LinearAt(f, Zero, Zero);
    }
  }

  /** It acts as `f`. */
  lemma MatrixOfApplies(f: Vec -> Vec, v: Vec)
    requires Linear(f)
    ensures Apply(MatrixOf(f), v) == f(v)
  {
    hide Vec.Add, Bit, Unit, Linear;
    SelectedMatrixOf(f, v, 160);
    IdentityApplies(v);
  }
}
