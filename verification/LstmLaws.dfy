/** Laws of a sequence run by itself: cutting it in two, turning it round, and taking its lowest layer off. */
module LstmLaws {
  import opened LstmAlone

  lemma PreIs<X, P, C, H>(a: Alone<X, P, C, H>, l: nat, d: Direction, t: nat)
    requires t < |a.xs|
    ensures a.Pre(l, d, t) == a.net.feed(l, d, if l == 0 then Input(a.xs[t]) else Handed(a, l - 1, t))
  {
  }

  /** What a layer hands up at one step. */
  function Handed<X, P, C, H>(a: Alone<X, P, C, H>, l: nat, t: nat): Feed<X, H>
    requires t < |a.xs|
  {
    Below(a.Forward(l, t).h, if a.bidirectional then Some(a.Reverse(l, t).h) else None)
  }

  // ---- A run can be cut ----

  /** The rest of the sequence from step `k`, started from the states that step `k - 1` ended with. */
  function Rest<X, P, C, H>(a: Alone<X, P, C, H>, k: nat): Alone<X, P, C, H>
    requires 1 <= k <= |a.xs|
  {
    Alone(a.net, a.bidirectional, a.xs[k..],
          (l: nat, d: Direction) => Some(Prefix(a, k).Forward(l, k - 1).h),
          (l: nat, d: Direction) => Some(Prefix(a, k).Forward(l, k - 1).c))
  }

  /** The first `k` steps by themselves. */
  function Prefix<X, P, C, H>(a: Alone<X, P, C, H>, k: nat): (b: Alone<X, P, C, H>)
    requires k <= |a.xs|
    ensures |b.xs| == k
  {
    a.(xs := a.xs[..k])
  }

  /** In one direction, the first steps do not see what follows. */
  lemma {:induction false} PrefixForward<X, P, C, H>(a: Alone<X, P, C, H>, k: nat, l: nat, t: nat)
    requires !a.bidirectional && t < k <= |a.xs|
    ensures Prefix(a, k).Forward(l, t) == a.Forward(l, t)
    decreases l, t
  {
    PreIs(a, l, Forth, t);
    PreIs(Prefix(a, k), l, Forth, t);
    if l > 0 { PrefixForward(a, k, l - 1, t); }
    if t > 0 { PrefixForward(a, k, l, t - 1); }
  }

  /** In one direction, stopping anywhere and going on from the states reached gives the run of the whole. */
  lemma {:induction false} Restart<X, P, C, H>(a: Alone<X, P, C, H>, k: nat, l: nat, t: nat)
    requires !a.bidirectional && 1 <= k && k + t < |a.xs|
    ensures Rest(a, k).Forward(l, t) == a.Forward(l, k + t)
    decreases l, t
  {
    PreIs(a, l, Forth, k + t);
    PreIs(Rest(a, k), l, Forth, t);
    if l > 0 { Restart(a, k, l - 1, t); }
    if t > 0 { Restart(a, k, l, t - 1); } else { PrefixForward(a, k, l, k - 1); }
  }

  /** The first `k` steps, started on the way back from the states that step `k` reached. */
  function Front<X, P, C, H>(a: Alone<X, P, C, H>, k: nat): Alone<X, P, C, H>
    requires k < |a.xs|
  {
    Alone(a.net, a.bidirectional, a.xs[..k],
          (l: nat, d: Direction) => Some(Suffix(a, k).Reverse(l, 0).h),
          (l: nat, d: Direction) => Some(Suffix(a, k).Reverse(l, 0).c))
  }

  function Suffix<X, P, C, H>(a: Alone<X, P, C, H>, k: nat): (b: Alone<X, P, C, H>)
    requires k <= |a.xs|
    ensures |b.xs| == |a.xs| - k
  {
    a.(xs := a.xs[k..])
  }

  lemma {:induction false} SuffixReverse<X, P, C, H>(a: Alone<X, P, C, H>, k: nat, t: nat)
    requires k + t < |a.xs|
    ensures Suffix(a, k).Reverse(0, t) == a.Reverse(0, k + t)
    decreases |a.xs| - t
  {
    if k + t + 1 < |a.xs| { SuffixReverse(a, k, t + 1); }
  }

  /** The same from the other end, in the lowest layer, which sees only the input. */
  lemma {:induction false} RestartBack<X, P, C, H>(a: Alone<X, P, C, H>, k: nat, t: nat)
    requires t < k < |a.xs|
    ensures Front(a, k).Reverse(0, t) == a.Reverse(0, t)
    decreases k - t
  {
    if t + 1 < k { RestartBack(a, k, t + 1); } else { SuffixReverse(a, k, 0); }
  }

  // ---- A run can be turned round ----

  function Turned(d: Direction): Direction { if d == Forth then Back else Forth }

  function TurnedFeed<X, H>(f: Feed<X, H>): Feed<X, H> {
    match f
    case Input(x) => f
    case Below(forth, None) => f
    case Below(forth, Some(back)) => Below(back, Some(forth))
  }

  function TurnedNet<X, P, C, H>(net: Net<X, P, C, H>): Net<X, P, C, H> {
    Net((l: nat, d: Direction, f: Feed<X, H>) => net.feed(l, Turned(d), TurnedFeed(f)),
        (l: nat, d: Direction, p: P, h: H) => net.recur(l, Turned(d), p, h), net.cell, net.out)
  }

  /** The sequence backwards, with the parts of the two directions exchanged. */
  function TurnedRound<X, P, C, H>(a: Alone<X, P, C, H>): (b: Alone<X, P, C, H>)
    ensures |b.xs| == |a.xs|
  {
    Alone(TurnedNet(a.net), a.bidirectional, seq(|a.xs|, t requires 0 <= t < |a.xs| => a.xs[|a.xs| - 1 - t]),
          (l: nat, d: Direction) => a.h0(l, Turned(d)), (l: nat, d: Direction) => a.c0(l, Turned(d)))
  }

  /** The reverse direction is the forward direction of the sequence turned round, and the other way round. */
  lemma {:induction false} TurningRound<X, P, C, H>(a: Alone<X, P, C, H>, l: nat, t: nat)
    requires a.bidirectional && t < |a.xs|
    ensures TurnedRound(a).Forward(l, t) == a.Reverse(l, |a.xs| - 1 - t)
    ensures TurnedRound(a).Reverse(l, t) == a.Forward(l, |a.xs| - 1 - t)
    decreases l
  {
    TurningForward(a, l, t);
    TurningReverse(a, l, t);
  }

  lemma TurnedFeeds<X, P, C, H>(a: Alone<X, P, C, H>, l: nat, d: Direction, f: Feed<X, H>)
    ensures TurnedRound(a).net.feed(l, d, f) == a.net.feed(l, Turned(d), TurnedFeed(f))
  {
  }

  lemma TurnedPre<X, P, C, H>(a: Alone<X, P, C, H>, l: nat, d: Direction, t: nat)
    requires a.bidirectional && t < |a.xs|
    ensures TurnedRound(a).Pre(l, d, t) == a.Pre(l, Turned(d), |a.xs| - 1 - t)
    decreases l, 0
  {
    PreIs(a, l, Turned(d), |a.xs| - 1 - t);
    PreIs(TurnedRound(a), l, d, t);
    TurnedFeeds(a, l, d, if l == 0 then Input(TurnedRound(a).xs[t]) else Handed(TurnedRound(a), l - 1, t));
    if l > 0 {
      TurningRound(a, l - 1, t);
      assert TurnedFeed(Handed(TurnedRound(a), l - 1, t)) == Handed(a, l - 1, |a.xs| - 1 - t);
    }
  }

  lemma {:induction false} TurningForward<X, P, C, H>(a: Alone<X, P, C, H>, l: nat, t: nat)
    requires a.bidirectional && t < |a.xs|
    ensures TurnedRound(a).Forward(l, t) == a.Reverse(l, |a.xs| - 1 - t)
    decreases l, 1, t
  {
    TurnedPre(a, l, Forth, t);
    if t > 0 { TurningForward(a, l, t - 1); }
  }

  lemma {:induction false} TurningReverse<X, P, C, H>(a: Alone<X, P, C, H>, l: nat, t: nat)
    requires a.bidirectional && t < |a.xs|
    ensures TurnedRound(a).Reverse(l, t) == a.Forward(l, |a.xs| - 1 - t)
    decreases l, 1, |a.xs| - t
  {
    TurnedPre(a, l, Back, t);
    if t + 1 < |a.xs| { TurningReverse(a, l, t + 1); }
  }

  // ---- The lowest layer can be taken off ----

  /** The layers above the lowest one, fed with what that one hands up. */
  function Upper<X, P, C, H>(a: Alone<X, P, C, H>): (b: Alone<Feed<X, H>, P, C, H>)
    ensures |b.xs| == |a.xs|
  {
    Alone(Net((l: nat, d: Direction, f: Feed<Feed<X, H>, H>) => a.net.feed(l + 1, d, Unwrapped(f)),
              (l: nat, d: Direction, p: P, h: H) => a.net.recur(l + 1, d, p, h), a.net.cell, a.net.out),
          a.bidirectional, seq(|a.xs|, t requires 0 <= t < |a.xs| => Handed(a, 0, t)),
          (l: nat, d: Direction) => a.h0(l + 1, d), (l: nat, d: Direction) => a.c0(l + 1, d))
  }

  function Unwrapped<X, H>(f: Feed<Feed<X, H>, H>): Feed<X, H> {
    match f
    case Input(x) => x
    case Below(forth, back) => Below(forth, back)
  }

  /** A stack of layers is the stack without its lowest layer, run on what that layer hands up. */
  lemma {:induction false} TakingOff<X, P, C, H>(a: Alone<X, P, C, H>, l: nat, t: nat)
    requires t < |a.xs|
    ensures Upper(a).Forward(l, t) == a.Forward(l + 1, t) && Upper(a).Reverse(l, t) == a.Reverse(l + 1, t)
    decreases l, 2
  {
    UpperForward(a, l, t);
    UpperReverse(a, l, t);
  }

  lemma UpperFeeds<X, P, C, H>(a: Alone<X, P, C, H>, l: nat, d: Direction, f: Feed<Feed<X, H>, H>)
    ensures Upper(a).net.feed(l, d, f) == a.net.feed(l + 1, d, Unwrapped(f))
  {
  }

  lemma UpperPre<X, P, C, H>(a: Alone<X, P, C, H>, l: nat, d: Direction, t: nat)
    requires t < |a.xs|
    ensures Upper(a).Pre(l, d, t) == a.Pre(l + 1, d, t)
    decreases l, 0
  {
    PreIs(a, l + 1, d, t);
    PreIs(Upper(a), l, d, t);
    UpperFeeds(a, l, d, if l == 0 then Input(Upper(a).xs[t]) else Handed(Upper(a), l - 1, t));
    if l > 0 {
      TakingOff(a, l - 1, t);
      assert Unwrapped(Handed(Upper(a), l - 1, t)) == Handed(a, l, t);
    }
  }

  lemma {:induction false} UpperForward<X, P, C, H>(a: Alone<X, P, C, H>, l: nat, t: nat)
    requires t < |a.xs|
    ensures Upper(a).Forward(l, t) == a.Forward(l + 1, t)
    decreases l, 1, t
  {
    UpperPre(a, l, Forth, t);
    if t > 0 { UpperForward(a, l, t - 1); }
  }

  lemma {:induction false} UpperReverse<X, P, C, H>(a: Alone<X, P, C, H>, l: nat, t: nat)
    requires t < |a.xs|
    ensures Upper(a).Reverse(l, t) == a.Reverse(l + 1, t)
    decreases l, 1, |a.xs| - t
  {
    UpperPre(a, l, Back, t);
    if t + 1 < |a.xs| { UpperReverse(a, l, t + 1); }
  }
}
