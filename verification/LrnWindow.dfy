/** Windows over channels: how a running sum slides, and why the backward window is the forward one transposed. */
module LrnWindow {
  import opened Sums

  /** The channels from `lo` up to but not including `hi`, clipped to the `n` there are. */
  function Span(n: nat, lo: int, hi: int): (s: set<int>)
    ensures forall k :: k in s <==> 0 <= k < n && lo <= k < hi
  {
    set k | k in Upto(n) && lo <= k < hi
  }

  /** From `before` channels before `o` to `after` channels after it. */
  function Window(n: nat, o: int, before: nat, after: nat): set<int> { Span(n, o - before, o + after + 1) }

  lemma SpanAdd(n: nat, lo: int, h: nat, f: int -> real)
    requires lo <= h
    ensures SumOver(Span(n, lo, h + 1), f) == SumOver(Span(n, lo, h), f) + if h < n then f(h) else 0.0
  {
    if h < n {
      assert Span(n, lo, h + 1) == Span(n, lo, h) + {h};
      SumInsert(Span(n, lo, h), h, f);
    } else {
      assert Span(n, lo, h + 1) == Span(n, lo, h);
    }
  }

  lemma SpanDrop(n: nat, lo: int, hi: int, f: int -> real)
    requires lo < hi
    ensures SumOver(Span(n, lo + 1, hi), f) == SumOver(Span(n, lo, hi), f) - if 0 <= lo < n then f(lo) else 0.0
  {
    if 0 <= lo < n {
      assert Span(n, lo, hi) == Span(n, lo + 1, hi) + {lo};
      SumInsert(Span(n, lo + 1, hi), lo, f);
    } else {
      assert Span(n, lo, hi) == Span(n, lo + 1, hi);
    }
  }

  // ---- Transposed windows ----

  datatype Pair = Pair(o: int, k: int)

  function Pairs(n: nat, before: nat, after: nat): (s: set<Pair>)
    ensures forall q: Pair :: q in s <==> 0 <= q.o < n && q.k in Window(n, q.o, before, after)
  {
    set o, k | 0 <= o < n && 0 <= k < n && k in Window(n, o, before, after) :: Pair(o, k)
  }

  ghost function WindowSums(n: nat, before: nat, after: nat, f: int -> real): int -> real {
    o => SumOver(Window(n, o, before, after), f)
  }

  function Product(f: int -> real, g: int -> real): int -> real { k => f(k) * g(k) }

  function OutputKey(): Pair -> int { (q: Pair) => q.o }

  function InputKey(): Pair -> int { (q: Pair) => q.k }

  function AtInput(f: int -> real): Pair -> real { (q: Pair) => f(q.k) }

  function AtBoth(f: int -> real, g: int -> real): Pair -> real { (q: Pair) => f(q.k) * g(q.o) }

  lemma ForwardShare(n: nat, before: nat, after: nat, f: int -> real, o: int)
    requires 0 <= o < n
    ensures Share(Pairs(n, before, after), OutputKey(), AtInput(f), o) == SumOver(Window(n, o, before, after), f)
  {
    var mine := Fibre(Pairs(n, before, after), OutputKey(), o);
    Reindex(mine, Window(n, o, before, after), InputKey(), (k: int) => Pair(o, k), AtInput(f), f);
  }

  lemma ForwardPaired(n: nat, before: nat, after: nat, f: int -> real, g: int -> real)
    ensures SumOver(Upto(n), Product(WindowSums(n, before, after, f), g))
            == SumOver(Pairs(n, before, after), AtBoth(f, g))
  {
    hide Share, SumOver, Window;
    var pairs := Pairs(n, before, after);
    forall o | o in Upto(n)
      ensures Product(WindowSums(n, before, after, f), g)(o) == Share(pairs, OutputKey(), AtInput(f), o) * g(o)
    {
      ForwardShare(n, before, after, f, o);
    }
    Pairing(pairs, Upto(n), OutputKey(), AtInput(f), g, Product(WindowSums(n, before, after, f), g), AtBoth(f, g));
  }

  function Swap(): Pair -> Pair { (q: Pair) => Pair(q.k, q.o) }

  /** The pairs of the backward windows are those of the forward windows, the other way round. */
  lemma PairsSwapped(n: nat, before: nat, after: nat, f: int -> real, g: int -> real)
    ensures SumOver(Pairs(n, before, after), AtBoth(f, g)) == SumOver(Pairs(n, after, before), AtBoth(g, f))
  {
    hide SumOver;
    forall q: Pair ensures AtBoth(f, g)(q) == AtBoth(g, f)(Swap()(q)) { Commutes(f(q.k), g(q.o)); }
    Reindex(Pairs(n, before, after), Pairs(n, after, before), Swap(), Swap(), AtBoth(f, g), AtBoth(g, f));
  }

  lemma Commutes(a: real, b: real)
    ensures a * b == b * a
  {
  }

  /** Summing over the backward windows is the adjoint of summing over the forward windows. */
  lemma WindowsAdjoint(n: nat, before: nat, after: nat, f: int -> real, g: int -> real)
    ensures SumOver(Upto(n), Product(WindowSums(n, before, after, f), g))
         == SumOver(Upto(n), Product(WindowSums(n, after, before, g), f))
  {
    hide *;
    ForwardPaired(n, before, after, f, g);
    PairsSwapped(n, before, after, f, g);
    ForwardPaired(n, after, before, g, f);
  }
}
