/** Sums of reals over finite sets, and regrouping them by a key. */
module Sums {

  ghost function Pick<T>(s: set<T>): (t: T)
    requires s != {}
    ensures t in s
  {
    var t :| t in s; t
  }

  ghost function SumOver<T>(s: set<T>, f: T -> real): real {
    if s == {} then 0.0 else f(Pick(s)) + SumOver(s - {Pick(s)}, f)
  }

  lemma SumEmpty<T>(f: T -> real)
    ensures SumOver({}, f) == 0.0
  {
  }

  lemma {:induction false} SumInsert<T>(s: set<T>, t: T, f: T -> real)
    requires t !in s
    ensures SumOver(s + {t}, f) == SumOver(s, f) + f(t)
    decreases |s|
  {
    var u := Pick(s + {t});
    if u == t {
      assert (s + {t}) - {u} == s;
    } else {
      assert (s + {t}) - {u} == (s - {u}) + {t};
      assert (s - {u}) + {u} == s;
      SumInsert(s - {u}, t, f);
      SumInsert(s - {u}, u, f);
    }
  }

  lemma {:induction false} SumSame<T>(s: set<T>, f: T -> real, g: T -> real)
    requires forall t :: t in s ==> f(t) == g(t)
    ensures SumOver(s, f) == SumOver(s, g)
    decreases |s|
  {
    if s != {} { SumSame(s - {Pick(s)}, f, g); }
  }

  lemma {:induction false} SumZero<T>(s: set<T>, f: T -> real)
    requires forall t :: t in s ==> f(t) == 0.0
    ensures SumOver(s, f) == 0.0
    decreases |s|
  {
    if s != {} { SumZero(s - {Pick(s)}, f); }
  }

  /** Terms that are zero may be left out. */
  lemma {:induction false} SumPart<T>(s: set<T>, part: set<T>, f: T -> real)
    requires part <= s && forall t :: t in s && t !in part ==> f(t) == 0.0
    ensures SumOver(s, f) == SumOver(part, f)
    decreases |s|
  {
    if s == part { return; }
    assert part + (s - part) == s;
    var u := Pick(s - part);
    SumInsert(s - {u}, u, f);
    assert (s - {u}) + {u} == s;
    SumPart(s - {u}, part, f);
  }

  function Weighted(a: real, b: real): real { a * b }

  lemma ProductAdds(a: real, b: real, factor: real)
    ensures Weighted(a + b, factor) == Weighted(a, factor) + Weighted(b, factor)
  {
  }

  lemma {:induction false} SumProduct<T>(s: set<T>, f: T -> real, g: T -> real, factor: real)
    requires forall t :: t in s ==> g(t) == Weighted(f(t), factor)
    ensures SumOver(s, g) == Weighted(SumOver(s, f), factor)
    decreases |s|
  {
    if s == {} {
      assert Weighted(0.0, factor) == 0.0;
    } else {
      hide Weighted;
      var u := Pick(s);
      SumProduct(s - {u}, f, g, factor);
      ProductAdds(f(u), SumOver(s - {u}, f), factor);
    }
  }

  lemma SumScale<T>(s: set<T>, f: T -> real, g: T -> real, factor: real)
    requires forall t :: t in s ==> g(t) == f(t) * factor
    ensures SumOver(s, g) == SumOver(s, f) * factor
  {
    hide SumOver;
    SumProduct(s, f, g, factor);
  }

  lemma {:induction false} SumAdds<T>(s: set<T>, f: T -> real, g: T -> real, h: T -> real)
    requires forall t :: t in s ==> h(t) == f(t) + g(t)
    ensures SumOver(s, h) == SumOver(s, f) + SumOver(s, g)
    decreases |s|
  {
    if s != {} { SumAdds(s - {Pick(s)}, f, g, h); }
  }

  /** A sum with one term that is not zero. */
  lemma SumSingle<T>(s: set<T>, u: T, f: T -> real)
    requires u in s && forall t :: t in s && t != u ==> f(t) == 0.0
    ensures SumOver(s, f) == f(u)
  {
    SumPart(s, {u}, f);
    SumInsert({}, u, f);
    assert {} + {u} == {u};
  }

  lemma {:induction false} SumConstant<T>(s: set<T>, f: T -> real, value: real)
    requires forall t :: t in s ==> f(t) == value
    ensures SumOver(s, f) == |s| as real * value
    decreases |s|
  {
    if s != {} { SumConstant(s - {Pick(s)}, f, value); }
  }

  function Upto(n: nat): (s: set<int>)
    ensures forall m :: m in s <==> 0 <= m < n
  {
    if n == 0 then {} else Upto(n - 1) + {n - 1}
  }

  // ---- Regrouping ----

  function Fibre<T, K(==)>(s: set<T>, key: T -> K, k: K): set<T> {
    set t | t in s && key(t) == k
  }

  /** The part of the sum that falls to key `k`. */
  ghost function Share<T, K>(s: set<T>, key: T -> K, f: T -> real, k: K): real {
    SumOver(Fibre(s, key, k), f)
  }

  ghost function Shares<T, K>(s: set<T>, key: T -> K, f: T -> real): K -> real {
    k => Share(s, key, f, k)
  }

  /** One more term goes to its own key's share and to no other. */
  lemma ShareInsert<T, K>(s: set<T>, t: T, key: T -> K, f: T -> real, k: K)
    requires t !in s
    ensures Share(s + {t}, key, f, k) == Share(s, key, f, k) + if key(t) == k then f(t) else 0.0
  {
    if key(t) == k {
      assert Fibre(s + {t}, key, k) == Fibre(s, key, k) + {t};
      SumInsert(Fibre(s, key, k), t, f);
    } else {
      assert Fibre(s + {t}, key, k) == Fibre(s, key, k);
    }
  }

  lemma SumBump<K>(keys: set<K>, k: K, g: K -> real, h: K -> real, d: real)
    requires k in keys && h(k) == g(k) + d
    requires forall q :: q in keys && q != k ==> h(q) == g(q)
    ensures SumOver(keys, h) == SumOver(keys, g) + d
  {
    var rest := keys - {k};
    assert keys == rest + {k};
    SumInsert(rest, k, g);
    SumInsert(rest, k, h);
    SumSame(rest, g, h);
  }

  /** A sum is the sum of its shares. */
  lemma {:induction false} Regroup<T, K>(s: set<T>, keys: set<K>, key: T -> K, f: T -> real)
    requires forall t :: t in s ==> key(t) in keys
    ensures SumOver(s, f) == SumOver(keys, Shares(s, key, f))
    decreases |s|
  {
    if s == {} {
      forall k | k in keys ensures Shares(s, key, f)(k) == 0.0 {
        assert Fibre(s, key, k) == {};
      }
      SumZero(keys, Shares(s, key, f));
    } else {
      var t := Pick(s);
      var rest := s - {t};
      assert rest + {t} == s;
      Regroup(rest, keys, key, f);
      SumInsert(rest, t, f);
      forall k | k in keys
        ensures Shares(s, key, f)(k) == Shares(rest, key, f)(k) + if key(t) == k then f(t) else 0.0
      {
        ShareInsert(rest, t, key, f, k);
      }
      SumBump(keys, key(t), Shares(rest, key, f), Shares(s, key, f), f(t));
    }
  }

  /** Pairing the shares with a weight per key is weighting every term by its key. */
  lemma Pairing<T, K>(s: set<T>, keys: set<K>, key: T -> K, f: T -> real, weight: K -> real, paired: K -> real,
                      term: T -> real)
    requires forall t :: t in s ==> key(t) in keys && term(t) == f(t) * weight(key(t))
    requires forall k :: k in keys ==> paired(k) == Share(s, key, f, k) * weight(k)
    ensures SumOver(keys, paired) == SumOver(s, term)
  {
    hide Share, SumOver, Fibre;
    Regroup(s, keys, key, term);
    forall k | k in keys ensures Shares(s, key, term)(k) == paired(k) {
      ShareScale(s, key, f, term, k, weight(k));
    }
    SumSame(keys, paired, Shares(s, key, term));
  }

  lemma ShareScale<T, K>(s: set<T>, key: T -> K, f: T -> real, term: T -> real, k: K, factor: real)
    requires forall t :: t in s && key(t) == k ==> term(t) == f(t) * factor
    ensures Share(s, key, term, k) == Share(s, key, f, k) * factor
  {
    hide SumOver;
    SumScale(Fibre(s, key, k), f, term, factor);
  }

  /** Renaming the indices one to one keeps the sum. */
  lemma Reindex<T, K>(s: set<T>, keys: set<K>, key: T -> K, back: K -> T, f: T -> real, g: K -> real)
    requires forall t :: t in s ==> key(t) in keys && back(key(t)) == t && f(t) == g(key(t))
    requires forall k :: k in keys ==> back(k) in s && key(back(k)) == k
    ensures SumOver(s, f) == SumOver(keys, g)
  {
    Regroup(s, keys, key, f);
    forall k | k in keys ensures Shares(s, key, f)(k) == g(k) {
      assert Fibre(s, key, k) == {back(k)};
      SumInsert({}, back(k), f);
      assert {} + {back(k)} == {back(k)};
    }
    SumSame(keys, Shares(s, key, f), g);
  }
}
