/** Powers of a matrix, computed in place by repeated squaring. */
module XorwowPower {
  import opened XorwowWords
  import opened XorwowMatrix

  /** `m` applied `n` times. */
  function Power(m: Matrix, n: nat, v: Vec): Vec { if n == 0 then v else Apply(m, Power(m, n - 1, v)) }

  lemma {:induction false} PowerAdds(m: Matrix, a: nat, b: nat, v: Vec)
    ensures Power(m, a + b, v) == Power(m, b, Power(m, a, v))
  {
    hide Apply;
    if b > 0 { PowerAdds(m, a, b - 1, v); }
  }

  /** `p` does in one application what `m` does in `n`. */
  ghost predicate ActsAs(p: Matrix, m: Matrix, n: nat) {
    forall v: Vec :: Apply(p, v) == Power(m, n, v)
  }

  /** Powers of a power. */
  lemma {:induction false} PowerOfPower(p: Matrix, m: Matrix, k: nat, n: nat, v: Vec)
    requires ActsAs(p, m, k)
    ensures Power(p, n, v) == Power(m, n * k, v)
  {
    hide Apply;
    if n > 0 {
      PowerOfPower(p, m, k, n - 1, v);
      PowerAdds(m, (n - 1) * k, k, v);
      assert (n - 1) * k + k == n * k;
    }
  }

  lemma ActsCompose(a: Matrix, b: Matrix, m: Matrix, i: nat, j: nat)
    requires ActsAs(a, m, i) && ActsAs(b, m, j)
    ensures ActsAs(Product(a, b), m, i + j)
  {
    hide Apply, Power, Product;
    forall v: Vec ensures Apply(Product(a, b), v) == Power(m, i + j, v) {
      ProductApplies(a, b, v);
      PowerAdds(m, i, j, v);
    }
  }

  lemma ActsStart(m: Matrix)
    ensures ActsAs(Identity(), m, 0) && ActsAs(m, m, 1)
  {
    forall v: Vec ensures Apply(Identity(), v) == Power(m, 0, v) { IdentityApplies(v); }
    hide Apply;
    forall v: Vec ensures Apply(m, v) == Power(m, 1, v) { assert Power(m, 0, v) == v; }
  }

  lemma ActsOfActs(p: Matrix, q: Matrix, m: Matrix, i: nat, j: nat)
    requires ActsAs(p, q, i) && ActsAs(q, m, j)
    ensures ActsAs(p, m, i * j)
  {
    hide Apply, Power;
    forall v: Vec ensures Apply(p, v) == Power(m, i * j, v) { PowerOfPower(q, m, j, i, v); }
  }

  // ---- In place ----

  /** Vector times matrix: the rows selected by the set bits. */
  method MatVec(matrix: Matrix, vector: Vec) returns (result: Vec)
    ensures result == Apply(matrix, vector)
  {
    hide Vec.Add, Mask, Set;
    result := Zero;
    for i := 0 to 5
      invariant result == Selected(matrix, vector, i * 32)
    {
      for j := 0 to 32
        invariant result == Selected(matrix, vector, i * 32 + j)
      {
        assert (i * 32 + j) / 32 == i && (i * 32 + j) % 32 == j;
        if Set(vector.Word(i), Mask(j)) {
          result := result.Add(matrix[i * 32 + j]);
        }
      }
    }
  }

  /** Every row of `a` times `b`. */
  method MatMat(a: array<Vec>, b: Matrix)
    requires a.Length == 160
    modifies a
    ensures a[..] == Product(old(a[..]), b)
  {
    hide Apply;
    for i := 0 to 160
      invariant forall k :: 0 <= k < i ==> a[k] == Apply(b, old(a[k]))
      invariant forall k :: i <= k < 160 ==> a[k] == old(a[k])
    {
      var row := MatVec(b, a[i]);
      a[i] := row;
    }
  }

  method MatIdentity(a: array<Vec>)
    requires a.Length == 160
    modifies a
    ensures a[..] == Identity()
  {
    hide Unit, Mask;
    for i := 0 to 5
      invariant forall k :: 0 <= k < i * 32 ==> a[k] == Unit(k)
    {
      for j := 0 to 32
        invariant forall k :: 0 <= k < i * 32 + j ==> a[k] == Unit(k)
      {
        var m := Mask(j);
        UnitAt(i, j);
        a[i * 32 + j] := Vec(if i == 0 then m else 0, if i == 1 then m else 0, if i == 2 then m else 0,
                             if i == 3 then m else 0, if i == 4 then m else 0);
      }
    }
  }

  lemma UnitAt(i: nat, j: nat)
    requires i < 5 && j < 32
    ensures var m := Mask(j);
            Unit(i * 32 + j) == Vec(if i == 0 then m else 0, if i == 1 then m else 0, if i == 2 then m else 0,
                                    if i == 3 then m else 0, if i == 4 then m else 0)
  {
    hide Mask;
    assert (i * 32 + j) / 32 == i && (i * 32 + j) % 32 == j;
  }

  lemma HalfStep(done: nat, power: nat, unit: nat, total: nat)
    requires done + power * unit == total
    ensures power % 2 == 1 ==> (done + unit) + power / 2 * (unit + unit) == total
    ensures power % 2 == 0 ==> done + power / 2 * (unit + unit) == total
  {
    assert power == power / 2 * 2 + power % 2;
    assert power / 2 * (unit + unit) == power / 2 * 2 * unit;
    assert (power / 2 * 2 + power % 2) * unit == power / 2 * 2 * unit + power % 2 * unit;
  }

  /** Binary exponentiation: `target` becomes the power, by squaring a copy once for every bit. */
  method MatPow(target: array<Vec>, matrix: Matrix, power: nat)
    requires target.Length == 160
    modifies target
    ensures ActsAs(target[..], matrix, power)
  {
    hide ActsAs, Product, Identity;
    MatIdentity(target);
    ActsStart(matrix);
    var square := new Vec[160](k requires 0 <= k < 160 => matrix[k]);
    assert square[..] == matrix;
    var left := power;
    ghost var done, unit := 0, 1;
    while left > 0
      invariant done + left * unit == power
      invariant ActsAs(target[..], matrix, done) && ActsAs(square[..], matrix, unit)
    {
      HalfStep(done, left, unit, power);
      if left % 2 == 1 {
        ActsCompose(target[..], square[..], matrix, done, unit);
        MatMat(target, square[..]);
        done := done + unit;
      }
      var copy := square[..];
      ActsCompose(copy, copy, matrix, unit, unit);
      MatMat(square, copy);
      unit := unit + unit;
      left := left / 2;
    }
    assert left * unit == 0;
  }
}
