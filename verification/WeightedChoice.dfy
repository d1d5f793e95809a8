/** Weighted random choice, as used for user-agents and for proxies. */
module WeightedChoice {
  import opened Basics

  function Sum(ws: seq<int>): int {
    if ws == [] then 0 else Sum(ws[..|ws| - 1]) + ws[|ws| - 1]
  }

  lemma SumAppend(ws: seq<int>, w: int)
    ensures Sum(ws + [w]) == Sum(ws) + w
  {
    assert (ws + [w])[..|ws|] == ws;
  }

  lemma SumNothing(ws: seq<int>)
    ensures Sum(ws[..0]) == 0
  {
  }

  /** The draw `n` falls on entry `i`: the first whose running total exceeds it. */
  predicate Falls(ws: seq<int>, n: int, i: nat) {
    && i < |ws|
    && n < Sum(ws[..i + 1])
    && forall j :: 0 <= j <= i ==> Sum(ws[..j]) <= n
  }

  predicate NonNegative(ws: seq<int>) {
    forall k :: 0 <= k < |ws| ==> ws[k] >= 0
  }

  lemma SumPrefix(ws: seq<int>, k: nat)
    requires k < |ws|
    ensures Sum(ws[..k + 1]) == Sum(ws[..k]) + ws[k]
  {
    assert ws[..k + 1] == ws[..k] + [ws[k]];
    SumAppend(ws[..k], ws[k]);
  }

  /** The entry on which a draw below the total falls. */
  function FallOf(ws: seq<int>, n: nat): (i: nat)
    requires n < Sum(ws)
    ensures Falls(ws, n, i)
  {
    FallFrom(ws, n, 0)
  }

  function FallFrom(ws: seq<int>, n: nat, k: nat): (i: nat)
    requires n < Sum(ws) && k <= |ws| && forall j :: 0 <= j <= k ==> Sum(ws[..j]) <= n
    ensures Falls(ws, n, i)
    decreases |ws| - k
  {
    assert ws[..|ws|] == ws;
    if n < Sum(ws[..k + 1]) then k else FallFrom(ws, n, k + 1)
  }

  /** A draw falls on one entry only. */
  lemma FallsOnce(ws: seq<int>, n: int, i: nat, j: nat)
    requires Falls(ws, n, i) && Falls(ws, n, j)
    ensures i == j
  {
  }

  /** The loop that subtracts weights from the draw until it goes below zero. The return after the
      loop is never reached, whatever the weights, as long as the draw is below their total. */
  method Choose(ws: seq<int>, draw: nat) returns (i: int)
    requires draw < Sum(ws)
    ensures 0 <= i && Falls(ws, draw, i)
  {
    assert ws[..|ws|] == ws;
    var n: int := draw;
    for k := 0 to |ws|
      invariant n == draw - Sum(ws[..k])
      invariant forall j :: 0 <= j <= k ==> Sum(ws[..j]) <= draw
    {
      SumPrefix(ws, k);
      n := n - ws[k];
      if n < 0 {
        return k;
      }
    }
    assert false;
    return |ws| - 1;
  }

  lemma {:induction false} PrefixSums(ws: seq<int>, i: nat, j: nat)
    requires NonNegative(ws) && i <= j <= |ws|
    ensures Sum(ws[..i]) <= Sum(ws[..j])
    decreases j - i
  {
    if i < j {
      SumPrefix(ws, i);
      PrefixSums(ws, i + 1, j);
    }
  }

  /** With non-negative weights, entry `i` gets exactly the interval of draws between the totals
      before and after it. */
  lemma {:induction false} FallsInInterval(ws: seq<int>, n: nat, i: nat)
    requires NonNegative(ws) && i < |ws|
    ensures Falls(ws, n, i) <==> Sum(ws[..i]) <= n < Sum(ws[..i + 1])
  {
    if Sum(ws[..i]) <= n < Sum(ws[..i + 1]) {
      forall j | 0 <= j <= i ensures Sum(ws[..j]) <= n {
        PrefixSums(ws, j, i);
      }
    }
  }

  /** How many of the draws below `n` fall on entry `i`. */
  function DrawsFor(ws: seq<int>, i: nat, n: nat): nat {
    if n == 0 then 0 else DrawsFor(ws, i, n - 1) + if Falls(ws, n - 1, i) then 1 else 0
  }

  lemma {:induction false} DrawsCounted(ws: seq<int>, i: nat, n: nat)
    requires NonNegative(ws) && i < |ws|
    ensures DrawsFor(ws, i, n) == Max(Min(n, Sum(ws[..i + 1])) - Sum(ws[..i]), 0)
  {
    SumPrefix(ws, i);
    PrefixSums(ws, 0, i);
    if n > 0 {
      DrawsCounted(ws, i, n - 1);
      FallsInInterval(ws, n - 1, i);
    }
  }

  /** Exactness: of all the draws in [0, total), entry `i` gets exactly `ws[i]`. So an entry of
      weight zero is never chosen. */
  lemma ChoiceIsExact(ws: seq<int>, i: nat)
    requires NonNegative(ws) && i < |ws|
    ensures Sum(ws) >= 0 && DrawsFor(ws, i, Sum(ws)) == ws[i]
  {
    hide Sum, NonNegative, DrawsFor;
    SumNothing(ws);
    assert ws[..|ws|] == ws;
    PrefixSums(ws, 0, |ws|);
    PrefixSums(ws, i + 1, |ws|);
    PrefixSums(ws, i, i + 1);
    SumPrefix(ws, i);
    DrawsCounted(ws, i, Sum(ws));
  }

  /// The user-agent pool

  datatype UAEntry = UAEntry(ua: string, weight: int)

  function Weights(entries: seq<UAEntry>): (ws: seq<int>)
    ensures |ws| == |entries|
    ensures forall k :: 0 <= k < |ws| ==> ws[k] == entries[k].weight
  {
    seq(|entries|, k requires 0 <= k < |entries| => entries[k].weight)
  }

  class UserAgentPool {
    var entries: seq<UAEntry>
    var total: int

    ghost predicate Valid()
      reads this
    {
      total == Sum(Weights(entries))
    }

    /** Fills the pool from a table, counting the total weight as it goes. */
    constructor (table: seq<UAEntry>)
      ensures Valid() && entries == table
    {
      entries, total := [], 0;
      new;
      assert Valid();
      hide Sum;
      for k := 0 to |table|
        invariant entries == table[..k] && Valid()
      {
        assert table[..k + 1] == table[..k] + [table[k]];
        assert Weights(entries + [table[k]]) == Weights(entries) + [table[k].weight];
        SumAppend(Weights(entries), table[k].weight);
        entries := entries + [table[k]];
        total := total + table[k].weight;
      }
    }

    /** The pool that a solved challenge pins the transport to. */
    constructor Single(ua: string)
      ensures Valid() && entries == [UAEntry(ua, 1)] && total == 1
    {
      entries, total := [UAEntry(ua, 1)], 1;
      new;
      assert Weights(entries) == [] + [1];
      SumAppend([], 1);
    }

    method Pick(draw: nat) returns (e: UAEntry)
      requires Valid() && draw < total
      ensures exists i: nat :: Falls(Weights(entries), draw, i) && e == entries[i]
      ensures |entries| == 1 ==> e == entries[0]
    {
      var i := Choose(Weights(entries), draw);
      e := entries[i];
    }
  }
}
