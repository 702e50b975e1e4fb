/** One sequence by itself: what a stack of forward and reverse layers computes for it. */
module LstmAlone {
  datatype Option<T> = None | Some(value: T)

  datatype Direction = Forth | Back

  /** What a layer is fed at one step: an input row, or the hidden rows of the layer below. */
  datatype Feed<X, H> = Input(x: X) | Below(forth: H, back: Option<H>)

  /**
   The arithmetic of one row. `recur` adds the hidden product and its bias; `cell` leaves out the old cell when there
   is none.
   */
  datatype Net<!X, !P, !C, !H> = Net(feed: (nat, Direction, Feed<X, H>) -> P, recur: (nat, Direction, P, H) -> P,
                                     cell: (P, Option<C>) -> C, out: (P, C) -> H) {
    /** Pre-activation, once the old hidden row is in. */
    function Gates(l: nat, d: Direction, p: P, h: Option<H>): P {
      if h.Some? then recur(l, d, p, h.value) else p
    }

    function Step(l: nat, d: Direction, p: P, h: Option<H>, c: Option<C>): State<C, H> {
      var gates := Gates(l, d, p, h);
      State(cell(gates, c), out(gates, cell(gates, c)))
    }
  }

  datatype State<C, H> = State(c: C, h: H)

  /**
   A sequence, with what it starts from in every layer and direction; nothing where the caller gave no initial state.
   */
  datatype Alone<!X, !P, !C, !H> = Alone(net: Net<X, P, C, H>, bidirectional: bool, xs: seq<X>,
                                         h0: (nat, Direction) -> Option<H>, c0: (nat, Direction) -> Option<C>) {
    function FeedAt(l: nat, t: nat): Feed<X, H>
      requires t < |xs|
      decreases l, 0, 0
    {
      if l == 0 then Input(xs[t])
      else Below(Forward(l - 1, t).h, if bidirectional then Some(Reverse(l - 1, t).h) else None)
    }

    function Pre(l: nat, d: Direction, t: nat): P
      requires t < |xs|
      decreases l, 1, 0
    {
      net.feed(l, d, FeedAt(l, t))
    }

    function Forward(l: nat, t: nat): State<C, H>
      requires t < |xs|
      decreases l, 2, t
    {
      if t == 0 then net.Step(l, Forth, Pre(l, Forth, t), h0(l, Forth), c0(l, Forth))
      else net.Step(l, Forth, Pre(l, Forth, t), Some(Forward(l, t - 1).h), Some(Forward(l, t - 1).c))
    }

    function Reverse(l: nat, t: nat): State<C, H>
      requires t < |xs|
      decreases l, 2, |xs| - t
    {
      if t == |xs| - 1 then net.Step(l, Back, Pre(l, Back, t), h0(l, Back), c0(l, Back))
      else net.Step(l, Back, Pre(l, Back, t), Some(Reverse(l, t + 1).h), Some(Reverse(l, t + 1).c))
    }
  }
}
