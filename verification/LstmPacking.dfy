/** Sequences of different lengths, packed by time step: row `Offset(t) + b` belongs to sequence `b` at time `t`. */
module LstmPacking {

  /** Batch sizes never grow, and there is a first step. */
  ghost predicate Packable(sizes: seq<nat>) {
    |sizes| >= 1 && forall s, t :: 0 <= s <= t < |sizes| ==> sizes[t] <= sizes[s]
  }

  /** Rows before time step `t`. */
  function Offset(sizes: seq<nat>, t: nat): nat
    requires t <= |sizes|
  {
    if t == 0 then 0 else Offset(sizes, t - 1) + sizes[t - 1]
  }

  function Rows(sizes: seq<nat>): nat { Offset(sizes, |sizes|) }

  /** Packed rows follow each other, step by step; the next step begins where one ends. */
  lemma RowsFollow(sizes: seq<nat>, t: nat)
    requires t < |sizes|
    ensures Offset(sizes, 0) == 0 && Offset(sizes, t + 1) == Offset(sizes, t) + sizes[t]
  {
  }

  /** How many of the first `n` steps sequence `b` takes part in. */
  function Steps(sizes: seq<nat>, b: nat, n: nat): nat
    requires n <= |sizes|
  {
    if n == 0 then 0 else Steps(sizes, b, n - 1) + if sizes[n - 1] > b then 1 else 0
  }

  function Length(sizes: seq<nat>, b: nat): nat { Steps(sizes, b, |sizes|) }

  lemma {:induction false} StepsAre(sizes: seq<nat>, b: nat, n: nat)
    requires Packable(sizes) && n <= |sizes|
    ensures Steps(sizes, b, n) <= n
    ensures forall t: nat :: t < n ==> (t < Steps(sizes, b, n) <==> sizes[t] > b)
  {
    if n > 0 {
      StepsAre(sizes, b, n - 1);
      if sizes[n - 1] > b {
        assert forall t: nat :: t < n - 1 ==> sizes[t] >= sizes[n - 1];
      }
    }
  }

  /** A sequence takes part in exactly the steps below its length. */
  lemma LengthIs(sizes: seq<nat>, b: nat)
    requires Packable(sizes)
    ensures Length(sizes, b) <= |sizes|
    ensures forall t: nat :: t < |sizes| ==> (t < Length(sizes, b) <==> sizes[t] > b)
    ensures b < sizes[0] ==> Length(sizes, b) >= 1
  {
    StepsAre(sizes, b, |sizes|);
  }

  lemma {:induction false} OffsetGrows(sizes: seq<nat>, s: nat, t: nat)
    requires s < t <= |sizes|
    ensures Offset(sizes, s) + sizes[s] <= Offset(sizes, t)
  {
    if s < t - 1 { OffsetGrows(sizes, s, t - 1); }
  }

  /** No two steps of any sequences share a row. */
  lemma RowsApart(sizes: seq<nat>, t: nat, b: nat, t': nat, b': nat)
    requires t < |sizes| && t' < |sizes| && b < sizes[t] && b' < sizes[t']
    requires Offset(sizes, t) + b == Offset(sizes, t') + b'
    ensures t == t' && b == b'
  {
    if t < t' { OffsetGrows(sizes, t, t'); } else if t' < t { OffsetGrows(sizes, t', t); }
  }

  lemma RowInside(sizes: seq<nat>, t: nat, b: nat)
    requires t < |sizes| && b < sizes[t]
    ensures Offset(sizes, t) + b < Rows(sizes)
  {
    OffsetGrows(sizes, t, |sizes|);
  }

  /** Every row belongs to some sequence at some time. */
  lemma {:induction false} RowTaken(sizes: seq<nat>, n: nat, r: nat)
    requires n <= |sizes| && r < Offset(sizes, n)
    ensures exists t: nat :: t < n && Offset(sizes, t) <= r < Offset(sizes, t) + sizes[t]
  {
    if r < Offset(sizes, n - 1) { RowTaken(sizes, n - 1, r); } else { assert Offset(sizes, n - 1) <= r; }
  }
}
