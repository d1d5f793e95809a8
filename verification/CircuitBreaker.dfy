/** The circuit breaker: a timed automaton that fails fast after a run of consecutive blocks.

    Every method of the class runs under the breaker's mutex and reads the clock inside it, so any
    interleaving of callers is one sequence of operations (the history) whose readings are in order. */
module Breaker {
  import opened Basics

  /** One completed operation. Recording a block reads the clock twice: once to ask whether the
      breaker is already open (`checked`), once to stamp the new deadline (`stamped`). */
  datatype Op =
    | Block(checked: Instant, stamped: Instant)
    | Success(at: Instant)
  {
    function Began(): Instant {
      if Block? then checked else at
    }

    function Ended(): Instant {
      if Block? then stamped else at
    }
  }

  datatype Policy = Policy(threshold: Positive, cooldown: Positive)

  /** The two mutable fields of the breaker. */
  datatype State = State(consecutive: nat, openUntil: nat)

  datatype Snapshot = Snapshot(policy: Policy, consecutive: nat, openUntil: nat)

  const FRESH: State := State(0, ZERO_TIME)

  /** Non-positive settings are replaced by the defaults. */
  function Normalized(threshold: int, cooldown: int): Policy {
    Policy(if threshold <= 0 then 5 else threshold, if cooldown <= 0 then 60 * SECOND else cooldown)
  }

  predicate Open(s: State, now: int) {
    s.openUntil != ZERO_TIME && now < s.openUntil
  }

  function Step(p: Policy, s: State, op: Op): State {
    match op
    case Block(_, stamped) =>
      State(s.consecutive + 1,
            if s.consecutive + 1 >= p.threshold then stamped + p.cooldown else s.openUntil)
    case Success(_) => FRESH
  }

  function Replay(p: Policy, h: seq<Op>): State {
    if h == [] then FRESH else Step(p, Replay(p, h[..|h| - 1]), h[|h| - 1])
  }

  lemma ReplayAppend(p: Policy, h: seq<Op>, op: Op)
    ensures Replay(p, h + [op]) == Step(p, Replay(p, h), op)
  {
    assert (h + [op])[..|h|] == h;
  }

  /// What the breaker is for, said without its fields

  /** How many blocks the history ends with. */
  function TrailingBlocks(h: seq<Op>): nat {
    if h == [] || h[|h| - 1].Success? then 0 else 1 + TrailingBlocks(h[..|h| - 1])
  }

  lemma TrailingAppend(h: seq<Op>, op: Op)
    ensures TrailingBlocks(h + [op]) == if op.Success? then 0 else 1 + TrailingBlocks(h)
  {
    assert (h + [op])[..|h|] == h;
  }

  /** Open means: the history ends with at least `threshold` blocks and the last is fresher than
      the cooldown. */
  predicate OpenByHistory(p: Policy, h: seq<Op>, now: int) {
    TrailingBlocks(h) >= p.threshold && now < h[|h| - 1].Ended() + p.cooldown
  }

  /** The fields always hold exactly what the history says, whatever the interleaving. */
  lemma {:induction false} RefinesHistory(p: Policy, h: seq<Op>)
    ensures Replay(p, h).consecutive == TrailingBlocks(h)
    ensures forall now :: Open(Replay(p, h), now) <==> OpenByHistory(p, h, now)
    ensures Replay(p, h).openUntil != ZERO_TIME <==> TrailingBlocks(h) >= p.threshold
  {
    if h != [] {
      RefinesHistory(p, h[..|h| - 1]);
    }
  }

  class CircuitBreaker {
    const policy: Policy
    var consecutive: nat
    var openUntil: nat
    /** The operations completed so far, in the order in which they held the mutex. */
    ghost var history: seq<Op>

    ghost predicate Valid()
      reads this
    {
      Fields() == Replay(policy, history)
    }

    ghost function Fields(): State
      reads this
    {
      State(consecutive, openUntil)
    }

    constructor (threshold: int, cooldown: int)
      ensures Valid() && history == []
      ensures policy == Normalized(threshold, cooldown)
      ensures Fields() == FRESH
    {
      policy := Normalized(threshold, cooldown);
      consecutive, openUntil, history := 0, ZERO_TIME, [];
    }

    method IsOpen(now: Instant) returns (open: bool)
      requires Valid()
      ensures open <==> OpenByHistory(policy, history, now)
      ensures open <==> Open(Fields(), now)
    {
      RefinesHistory(policy, history);
      open := openUntil != ZERO_TIME && now < openUntil;
    }

    /** Reports `tripped` exactly when this block trips a breaker that was not open. */
    method RecordBlock(checked: Instant, stamped: Instant) returns (tripped: bool, snap: Snapshot)
      requires Valid()
      modifies this
      ensures Valid() && history == old(history) + [Block(checked, stamped)]
      ensures Fields() == Step(policy, old(Fields()), Block(checked, stamped))
      ensures tripped <==> (TrailingBlocks(history) >= policy.threshold
                            && !OpenByHistory(policy, old(history), checked))
      ensures tripped <==> OpensAt(policy, old(history), Block(checked, stamped))
      ensures tripped <==> consecutive >= policy.threshold && !Open(old(Fields()), checked)
      ensures snap == Snapshot(policy, TrailingBlocks(history), openUntil) && snap.consecutive == consecutive
      ensures TrailingBlocks(history) >= policy.threshold ==> snap.openUntil == stamped + policy.cooldown
    {
      hide Replay, OpenByHistory, TrailingBlocks;
      RefinesHistory(policy, history);
      ReplayAppend(policy, history, Block(checked, stamped));
      TrailingAppend(history, Block(checked, stamped));
      consecutive := consecutive + 1;
      tripped := false;
      if consecutive >= policy.threshold {
        var wasOpen := openUntil != ZERO_TIME && checked < openUntil;
        openUntil := stamped + policy.cooldown;
        tripped := !wasOpen;
      }
      history := history + [Block(checked, stamped)];
      snap := Snapshot(policy, consecutive, openUntil);
    }

    /** Reports `cleared` exactly when the breaker was open, and always starts a new run. */
    method RecordSuccess(now: Instant) returns (cleared: bool, snap: Snapshot)
      requires Valid()
      modifies this
      ensures Valid() && history == old(history) + [Success(now)]
      ensures Fields() == FRESH
      ensures cleared <==> OpenByHistory(policy, old(history), now)
      ensures cleared <==> ClosesAt(policy, old(history), Success(now))
      ensures cleared <==> Open(old(Fields()), now)
      ensures snap == Snapshot(policy, 0, ZERO_TIME)
    {
      RefinesHistory(policy, history);
      ReplayAppend(policy, history, Success(now));
      cleared := openUntil != ZERO_TIME && now < openUntil;
      consecutive, openUntil := 0, ZERO_TIME;
      history := history + [Success(now)];
      snap := Snapshot(policy, consecutive, openUntil);
    }

    method Read() returns (snap: Snapshot)
      requires Valid()
      ensures snap == Snapshot(policy, TrailingBlocks(history), openUntil) && snap.consecutive == consecutive
    {
      RefinesHistory(policy, history);
      snap := Snapshot(policy, consecutive, openUntil);
    }
  }

  /// Reports over whole runs

  /** This operation, after this history, reports that it opened the breaker. */
  predicate OpensAt(p: Policy, h: seq<Op>, op: Op) {
    op.Block? && TrailingBlocks(h) + 1 >= p.threshold && !OpenByHistory(p, h, op.checked)
  }

  /** This operation, after this history, reports that it closed the breaker. */
  predicate ClosesAt(p: Policy, h: seq<Op>, op: Op) {
    op.Success? && OpenByHistory(p, h, op.at)
  }

  predicate Opened(p: Policy, h: seq<Op>, k: int) {
    0 <= k < |h| && OpensAt(p, h[..k], h[k])
  }

  predicate Closed(p: Policy, h: seq<Op>, k: int) {
    0 <= k < |h| && ClosesAt(p, h[..k], h[k])
  }

  predicate NoneClosed(p: Policy, h: seq<Op>, lo: int, hi: int) {
    forall k :: lo <= k < hi ==> !Closed(p, h, k)
  }

  /** The clock never runs backwards between operations, nor within one. */
  predicate ClockOrdered(h: seq<Op>) {
    && (forall k :: 0 <= k < |h| ==> h[k].Began() <= h[k].Ended())
    && (forall j, k :: 0 <= j < k < |h| ==> h[j].Ended() <= h[k].Began())
  }

  /** A run of blocks that reached the threshold contains the operation that reported the opening. */
  lemma {:induction false} TrippedRunWasReported(p: Policy, h: seq<Op>, n: nat) returns (j: nat)
    requires n <= |h|
    requires TrailingBlocks(h[..n]) >= p.threshold
    ensures j < n && Opened(p, h, j)
    ensures forall k :: j <= k < n ==> h[k].Block?
  {
    assert h[..n][..n - 1] == h[..n - 1];
    if TrailingBlocks(h[..n - 1]) >= p.threshold {
      j := TrippedRunWasReported(p, h, n - 1);
    } else {
      j := n - 1;
    }
  }

  /** Each closing report is preceded by an opening report since the previous closing report. */
  lemma {:induction false} ClosingFollowsOpening(p: Policy, h: seq<Op>, k: nat) returns (j: nat)
    requires Closed(p, h, k)
    ensures j < k && Opened(p, h, j) && NoneClosed(p, h, j, k)
  {
    j := TrippedRunWasReported(p, h, k);
  }

  /** From an opening report on, while nothing is reported closed, either the deadline still covers
      that report's cooldown, or the clock has already passed it. */
  lemma {:induction false} CooldownIsHeld(p: Policy, h: seq<Op>, j: nat, n: nat)
    requires ClockOrdered(h)
    requires j < n <= |h| && Opened(p, h, j) && NoneClosed(p, h, j, n)
    ensures || (TrailingBlocks(h[..n]) >= p.threshold && h[n - 1].Ended() >= h[j].Ended())
            || h[n - 1].Ended() >= h[j].Ended() + p.cooldown
  {
    assert h[..n][..n - 1] == h[..n - 1];
    if n - 1 > j {
      CooldownIsHeld(p, h, j, n - 1);
      assert h[n - 2].Ended() <= h[n - 1].Began();
      assert !Closed(p, h, n - 1);
    }
  }

  /** Two opening reports with no closing report between them are at least a cooldown apart. */
  lemma {:induction false} OpeningsAreSpaced(p: Policy, h: seq<Op>, j: nat, k: nat)
    requires ClockOrdered(h)
    requires j < k && Opened(p, h, j) && Opened(p, h, k) && NoneClosed(p, h, j, k)
    ensures h[k].checked >= h[j].stamped + p.cooldown
  {
    CooldownIsHeld(p, h, j, k);
    assert h[k - 1].Ended() <= h[k].Began();
  }

  /** The cooldown alone does not clear the count: once it has run out, one further block opens the
      breaker again at once, however large the threshold. */
  lemma OneBlockReopens(p: Policy, h: seq<Op>, op: Op)
    requires TrailingBlocks(h) >= p.threshold && op.Block?
    requires op.checked >= h[|h| - 1].Ended() + p.cooldown
    ensures OpensAt(p, h, op)
    ensures forall now :: OpenByHistory(p, h + [op], now) <==> now < op.stamped + p.cooldown
  {
    assert (h + [op])[..|h|] == h;
  }
}
