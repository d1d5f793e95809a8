/** How long a retry loop sleeps in all, and when it ends. */
module Endings {
  import opened Basics
  import opened Budgets
  import opened RetryLoop
  import Backoff
  import Breaker
  import Errors
  import Solver = ChallengeSolver

  /// Total backoff

  /** The longest pause before attempt `i + 1`, with the largest jitter. */
  function Longest(cfg: Config, i: nat): real {
    Backoff.Doubled(cfg.baseDelay, i) as real * (1.0 + cfg.jitterFrac)
  }

  /** The longest pauses of attempts `i` to `n`, together. */
  function LongestFrom(cfg: Config, i: nat, n: nat): (d: real)
    requires cfg.jitterFrac >= 0.0
    ensures d >= 0.0
    decreases n - i
  {
    if i >= n then 0.0
    else
      LongestNonNegative(cfg, i);
      Longest(cfg, i) + LongestFrom(cfg, i + 1, n)
  }

  lemma LongestNonNegative(cfg: Config, i: nat)
    requires cfg.jitterFrac >= 0.0
    ensures Longest(cfg, i) >= 0.0
  {
    Backoff.ProductNonNegative(Backoff.Doubled(cfg.baseDelay, i) as real, 1.0 + cfg.jitterFrac);
  }

  lemma PauseBound(cfg: Config, i: nat, r: Round)
    requires cfg.jitterFrac >= 0.0
    ensures Max(Pause(cfg, i, r), 0) as real <= Longest(cfg, i)
  {
    hide Pause, Longest;
    PauseBoundExact(cfg, i, r, Backoff.Doubled(cfg.baseDelay, i), 1.0 + cfg.jitterFrac,
                    Backoff.Factor(cfg.jitterFrac, r.u));
  }

  lemma PauseBoundExact(cfg: Config, i: nat, r: Round, exact: nat, spread: real, factor: real)
    requires cfg.jitterFrac >= 0.0 && exact == Backoff.Doubled(cfg.baseDelay, i)
    requires spread == 1.0 + cfg.jitterFrac && factor == Backoff.Factor(cfg.jitterFrac, r.u)
    ensures Max(Pause(cfg, i, r), 0) as real <= Longest(cfg, i)
  {
    Backoff.FactorBound(cfg.jitterFrac, r.u);
    hide Backoff.Factor, Backoff.Delay, Longest;
    LongestIs(cfg, i, exact, spread);
    Backoff.DelayBound(cfg.baseDelay, i, factor, cfg.saturates, spread, exact);
  }

  lemma {:induction false} LongestTotal(cfg: Config, i: nat, n: nat, lo: nat, rise: nat, spread: real)
    requires cfg.jitterFrac >= 0.0 && i <= n && spread == 1.0 + cfg.jitterFrac
    requires lo == Backoff.Doubled(cfg.baseDelay, i) && lo + rise == Backoff.Doubled(cfg.baseDelay, n)
    ensures LongestFrom(cfg, i, n) == rise as real * spread
    decreases n - i
  {
    hide Longest;
    if i < n {
      Backoff.DoubledMonotone(cfg.baseDelay, i + 1, n);
      LongestTotal(cfg, i + 1, n, 2 * lo, rise - lo, spread);
      LongestIs(cfg, i, lo, spread);
      Backoff.AddScaled(lo, rise - lo, rise, spread);
    }
  }

  lemma LongestIs(cfg: Config, i: nat, lo: nat, spread: real)
    requires lo == Backoff.Doubled(cfg.baseDelay, i) && spread == 1.0 + cfg.jitterFrac
    ensures Longest(cfg, i) == lo as real * spread
  {}

  lemma {:induction false} LoopRests(cfg: Config, kind: Request, i: nat, w: World)
    requires i < cfg.retryMax && cfg.jitterFrac >= 0.0
    ensures Rested(Loop(cfg, kind, i, w).w.trace, kind) as real
            <= Rested(w.trace, kind) as real + LongestFrom(cfg, i, cfg.retryMax - 1)
    ensures !kind.Djs? ==>
              forall k :: k != kind ==> Rested(Loop(cfg, kind, i, w).w.trace, k) == Rested(w.trace, k)
    decreases |w.script|, 0
  {
    hide Gate, Pace, Prepare, Attempt, Longest, LongestFrom, Requests, Rested;
    if w.script != [] {
      var r, w0 := w.script[0], w.(script := w.script[1..]);
      GateFree(cfg, kind, i, w0, r);
      var (w1, open) := Gate(cfg, kind, i, w0, r);
      if !open {
        PaceFree(cfg, w1, r);
        var (w2, cut) := Pace(cfg, w1, r);
        if !cut {
          PrepareRests(cfg, kind, w2, r);
          var built := Prepare(cfg, kind, w2, r);
          if built.outcome.Done? {
            AttemptRests(cfg, kind, i, built.outcome.value, built.w, r);
          }
        }
      }
    }
  }

  lemma {:induction false} PrepareRests(cfg: Config, kind: Request, w: World, r: Round)
    requires cfg.jitterFrac >= 0.0
    ensures var w' := Prepare(cfg, kind, w, r).w;
            && Rested(w'.trace, kind) == Rested(w.trace, kind)
            && (!kind.Djs? ==> w' == w)
    decreases |w.script|, 2
  {
    hide Loop, Longest, LongestFrom, Requests, Rested;
    if kind.Djs? {
      var w1 := Tick(w, r.dLookup);
      var key := CacheKey(kind.query, w1.ua);
      if Cached(w1, key) {
        Append(w1.trace, CacheHit(key, w1.cache[key].value, w1.now));
      } else {
        LoopRests(cfg, Vqd(kind.query), 0, w1);
        var run := Loop(cfg, Vqd(kind.query), 0, w1);
        if run.outcome.Done? {
          Append(run.w.trace, Stored(key, run.outcome.value.vqd, w1.now));
        }
      }
    }
  }

  lemma {:induction false} AttemptRests(cfg: Config, kind: Request, i: nat, token: string, w: World, r: Round)
    requires i < cfg.retryMax && cfg.jitterFrac >= 0.0
    ensures Rested(Attempt(cfg, kind, i, token, w, r).w.trace, kind) as real
            <= Rested(w.trace, kind) as real + LongestFrom(cfg, i, cfg.retryMax - 1)
    ensures !kind.Djs? ==>
              forall k :: k != kind ==> Rested(Attempt(cfg, kind, i, token, w, r).w.trace, k) == Rested(w.trace, k)
    decreases |w.script|, 2
  {
    hide Send, Judge, Reward, Punish, Challenge, Loop, Recur, Longest, LongestFrom, Requests, Rested;
    SendCosts(cfg, kind, token, w, r);
    var (w1, fate) := Judge(cfg, i, Send(cfg, kind, token, w, r), r);
    OutcomeFree(cfg, kind, i, w1, r);
    match fate
    case Finish(_) =>
    case Again(e) =>
      RecurRests(cfg, kind, i, e, w1, r);
    case Handle(e) =>
      ChallengeFree(cfg, Punish(cfg, kind, i, w1, r), r);
      var (w2, solved) := Challenge(cfg, Punish(cfg, kind, i, w1, r), r);
      if solved {
        LoopRests(cfg, kind, i, w2);
      } else {
        RecurRests(cfg, kind, i, e, w2, r);
      }
  }

  lemma {:induction false} RecurRests(cfg: Config, kind: Request, i: nat, e: Errors.Error, w: World, r: Round)
    requires i < cfg.retryMax && cfg.jitterFrac >= 0.0
    ensures Rested(Recur(cfg, kind, i, e, w, r).w.trace, kind) as real
            <= Rested(w.trace, kind) as real + LongestFrom(cfg, i, cfg.retryMax - 1)
    ensures !kind.Djs? ==>
              forall k :: k != kind ==> Rested(Recur(cfg, kind, i, e, w, r).w.trace, k) == Rested(w.trace, k)
    decreases |w.script|, 1
  {
    hide Rest, Pause, Loop, Longest, Requests, Rested;
    if i < cfg.retryMax - 1 {
      RestCosts(cfg, kind, i, w, r);
      PauseBound(cfg, i, r);
      var (w1, cut) := Rest(cfg, kind, i, w, r);
      if !cut {
        LoopRests(cfg, kind, i + 1, w1);
      }
    }
  }

  /// No exponent twice

  predicate SleepOf(e: Event, kind: Request) {
    e.Slept? && e.kind == kind
  }

  /** From `w` to `w'` nothing slept for this kind of request. */
  predicate Awake(w: World, w': World, kind: Request) {
    w.trace <= w'.trace && forall k :: |w.trace| <= k < |w'.trace| ==> !SleepOf(w'.trace[k], kind)
  }

  /** From `w` to `w'` nothing slept for another kind of request. */
  predicate OnlyFor(w: World, w': World, kind: Request) {
    w.trace <= w'.trace && forall k :: |w.trace| <= k < |w'.trace| && w'.trace[k].Slept? ==> w'.trace[k].kind == kind
  }

  /** From `w` to `w'` the exponents slept for this kind of request climb strictly, from `lo` to below `hi`. */
  predicate Climbs(w: World, w': World, kind: Request, lo: nat, hi: int) {
    var tr := w'.trace;
    && w.trace <= tr
    && (forall k :: |w.trace| <= k < |tr| && SleepOf(tr[k], kind) ==> lo <= tr[k].exponent < hi)
    && forall j, k :: |w.trace| <= j < k < |tr| && SleepOf(tr[j], kind) && SleepOf(tr[k], kind) ==>
                        tr[j].exponent < tr[k].exponent
  }

  lemma ClimbsFrom(w: World, w1: World, w': World, kind: Request, lo: nat, hi: int)
    requires Awake(w, w1, kind) && Climbs(w1, w', kind, lo, hi)
    ensures Climbs(w, w', kind, lo, hi)
  {
    assert forall k :: 0 <= k < |w1.trace| ==> w'.trace[k] == w1.trace[k];
  }

  lemma OnlyForBoth(w: World, w1: World, w': World, kind: Request)
    requires OnlyFor(w, w1, kind) && OnlyFor(w1, w', kind)
    ensures OnlyFor(w, w', kind)
  {
    assert forall k :: 0 <= k < |w1.trace| ==> w'.trace[k] == w1.trace[k];
  }

  /** At most one event was appended, and no sleep. */
  lemma OneAwake(w: World, w': World, e: Event, kind: Request)
    requires (w'.trace == w.trace || w'.trace == w.trace + [e]) && !e.Slept?
    ensures Awake(w, w', kind) && OnlyFor(w, w', kind) && Climbs(w, w', kind, 0, 0)
  {
  }

  lemma AwakeBoth(w: World, w1: World, w': World, kind: Request)
    requires Awake(w, w1, kind) && Awake(w1, w', kind)
    ensures Awake(w, w', kind)
  {
    assert forall k :: 0 <= k < |w1.trace| ==> w'.trace[k] == w1.trace[k];
  }

  lemma AwakeClimbs(w: World, w': World, kind: Request, lo: nat, hi: int)
    requires Awake(w, w', kind)
    ensures Climbs(w, w', kind, lo, hi)
  {
  }

  /** The pauses of one loop, refunds and nested fetches included, have strictly growing exponents, from
      the first attempt's to below retryMax - 1. */
  lemma {:induction false} LoopClimbs(cfg: Config, kind: Request, i: nat, w: World)
    requires i < cfg.retryMax
    ensures var w' := Loop(cfg, kind, i, w).w;
            Climbs(w, w', kind, i, cfg.retryMax - 1) && (!kind.Djs? ==> OnlyFor(w, w', kind))
    decreases |w.script|, 0
  {
    hide Gate, Pace, Prepare, Attempt, Awake, OnlyFor, Climbs;
    var any := Solved("");
    OneAwake(w, w, any, kind);
    AwakeClimbs(w, w, kind, i, cfg.retryMax - 1);
    if w.script != [] {
      var r, w0 := w.script[0], w.(script := w.script[1..]);
      var (w1, open) := Gate(cfg, kind, i, w0, r);
      OneAwake(w, w1, Rejected(kind, i + 1, w1.now), kind);
      AwakeClimbs(w, w1, kind, i, cfg.retryMax - 1);
      if !open {
        var (w2, cut) := Pace(cfg, w1, r);
        PaceAwake(cfg, w, w1, r, kind);
        AwakeClimbs(w, w2, kind, i, cfg.retryMax - 1);
        if !cut {
          PrepareAwake(cfg, kind, w2, r);
          var built := Prepare(cfg, kind, w2, r);
          AwakeBoth(w, w2, built.w, kind);
          AwakeClimbs(w, built.w, kind, i, cfg.retryMax - 1);
          if built.outcome.Done? {
            AttemptClimbs(cfg, kind, i, built.outcome.value, built.w, r);
            var w' := Attempt(cfg, kind, i, built.outcome.value, built.w, r).w;
            ClimbsFrom(w, built.w, w', kind, i, cfg.retryMax - 1);
            if !kind.Djs? {
              OnlyForBoth(w, w2, w', kind);
            }
          }
        }
      }
    }
  }

  lemma PaceAwake(cfg: Config, w: World, w1: World, r: Round, kind: Request)
    requires Awake(w, w1, kind) && OnlyFor(w, w1, kind)
    ensures var w2 := Pace(cfg, w1, r).0;
            Awake(w, w2, kind) && OnlyFor(w, w2, kind)
  {
    hide Pace, Awake, OnlyFor;
    var w2 := Pace(cfg, w1, r).0;
    var e := if w2.trace == w1.trace + [Turn(w2.now)] then Turn(w2.now) else Slot(w1.now + r.dTurn, r.z);
    OneAwake(w1, w2, e, kind);
    AwakeBoth(w, w1, w2, kind);
    OnlyForBoth(w, w1, w2, kind);
  }

  /** A nested token loop sleeps for its own kind only. */
  lemma {:induction false} PrepareAwake(cfg: Config, kind: Request, w: World, r: Round)
    ensures Awake(w, Prepare(cfg, kind, w, r).w, kind) && (!kind.Djs? ==> Prepare(cfg, kind, w, r).w == w)
    decreases |w.script|, 2
  {
    hide Loop, Climbs;
    if kind.Djs? {
      var w1 := Tick(w, r.dLookup);
      if !Cached(w1, CacheKey(kind.query, w1.ua)) {
        LoopClimbs(cfg, Vqd(kind.query), 0, w1);
      }
    }
  }

  lemma {:induction false} AttemptClimbs(cfg: Config, kind: Request, i: nat, token: string, w: World, r: Round)
    requires i < cfg.retryMax
    ensures var w' := Attempt(cfg, kind, i, token, w, r).w;
            Climbs(w, w', kind, i, cfg.retryMax - 1) && (!kind.Djs? ==> OnlyFor(w, w', kind))
    decreases |w.script|, 2
  {
    hide Send, Judge, Reward, Punish, Challenge, Loop, Recur, Awake, OnlyFor, Climbs;
    var hi := cfg.retryMax - 1;
    var w0 := Send(cfg, kind, token, w, r);
    OneAwake(w, w, Solved(""), kind);
    OneAwake(w, w0, w0.trace[|w.trace|], kind);
    var (w1, fate) := Judge(cfg, i, w0, r);
    OneAwake(w, w1, w0.trace[|w.trace|], kind);
    match fate
    case Finish(outcome) =>
      OneAwake(w1, Reward(cfg, kind, i, w1, r), Clean(kind, i + 1, w1.lastProxy, w1.now + r.dRecord), kind);
      AwakeBoth(w, w1, Reward(cfg, kind, i, w1, r), kind);
      OnlyForBoth(w, w1, Reward(cfg, kind, i, w1, r), kind);
      AwakeClimbs(w, Attempt(cfg, kind, i, token, w, r).w, kind, i, hi);
    case Again(e) =>
      RecurClimbs(cfg, kind, i, e, w, w1, r);
    case Handle(e) =>
      var w2 := Punish(cfg, kind, i, w1, r);
      OneAwake(w1, w2, BlockEvent(kind, i, w1, r), kind);
      AwakeBoth(w, w1, w2, kind);
      OnlyForBoth(w, w1, w2, kind);
      var (w3, solved) := Challenge(cfg, w2, r);
      OneAwake(w2, w3, if solved then w3.trace[|w2.trace|] else Solved(""), kind);
      AwakeBoth(w, w2, w3, kind);
      OnlyForBoth(w, w2, w3, kind);
      if solved {
        LoopClimbs(cfg, kind, i, w3);
        ClimbsFrom(w, w3, Loop(cfg, kind, i, w3).w, kind, i, hi);
        if !kind.Djs? {
          OnlyForBoth(w, w3, Loop(cfg, kind, i, w3).w, kind);
        }
      } else {
        RecurClimbs(cfg, kind, i, e, w, w3, r);
      }
  }

  lemma {:induction false} RecurClimbs(cfg: Config, kind: Request, i: nat, e: Errors.Error, w: World, w1: World,
                                       r: Round)
    requires i < cfg.retryMax && Awake(w, w1, kind) && OnlyFor(w, w1, kind)
    ensures var w' := Recur(cfg, kind, i, e, w1, r).w;
            Climbs(w, w', kind, i, cfg.retryMax - 1) && (!kind.Djs? ==> OnlyFor(w, w', kind))
    decreases |w1.script|, 1
  {
    hide Rest, Loop, Pause, Awake, OnlyFor, Climbs;
    AwakeClimbs(w, w1, kind, i, cfg.retryMax - 1);
    if i < cfg.retryMax - 1 {
      var (w2, cut) := Rest(cfg, kind, i, w1, r);
      RestClimbs(cfg, kind, i, w1, r);
      if !cut {
        LoopClimbs(cfg, kind, i + 1, w2);
        var w' := Loop(cfg, kind, i + 1, w2).w;
        ClimbsOn(w1, w2, w', kind, i, cfg.retryMax - 1);
        ClimbsFrom(w, w1, w', kind, i, cfg.retryMax - 1);
        if !kind.Djs? {
          OnlyForBoth(w1, w2, w', kind);
          OnlyForBoth(w, w1, w', kind);
        }
      } else {
        ClimbsFrom(w, w1, w2, kind, i, cfg.retryMax - 1);
        OnlyForBoth(w, w1, w2, kind);
      }
    }
  }

  lemma RestClimbs(cfg: Config, kind: Request, i: nat, w: World, r: Round)
    requires i < cfg.retryMax - 1
    ensures var w' := Rest(cfg, kind, i, w, r).0;
            && Climbs(w, w', kind, i, i + 1) && OnlyFor(w, w', kind) && Climbs(w, w', kind, i, cfg.retryMax - 1)
  {
    hide Rest, Pause;
  }

  lemma ClimbsOn(w: World, w1: World, w': World, kind: Request, i: nat, hi: int)
    requires Climbs(w, w1, kind, i, i + 1) && Climbs(w1, w', kind, i + 1, hi) && i + 1 <= hi
    ensures Climbs(w, w', kind, i, hi)
  {
    assert forall k :: 0 <= k < |w1.trace| ==> w'.trace[k] == w1.trace[k];
  }

  /** The geometric sum: baseDelay * (2^n - 1). */
  lemma DoubledTotal(base: nat, n: nat)
    ensures Backoff.Doubled(base, n) == base + base * (Backoff.Pow2(n) - 1)
  {
    Backoff.DoubledIsProduct(base, n);
  }

  /** The total sleep between the attempts of one call, however often a solver refunds one, is at most
      (1 + jitter) * baseDelay * (2^(retryMax - 1) - 1): no exponent is slept twice. */
  lemma TotalBackoff(cfg: Config, kind: Request, w: World)
    requires cfg.jitterFrac >= 0.0
    ensures (Rested(Loop(cfg, kind, 0, w).w.trace, kind) - Rested(w.trace, kind)) as real
            <= (cfg.baseDelay * (Backoff.Pow2(cfg.retryMax - 1) - 1)) as real * (1.0 + cfg.jitterFrac)
  {
    hide Loop, Requests, Rested;
    DoubledTotal(cfg.baseDelay, cfg.retryMax - 1);
    RestsInAll(cfg, kind, w, 1.0 + cfg.jitterFrac, cfg.baseDelay * (Backoff.Pow2(cfg.retryMax - 1) - 1));
  }

  lemma RestsInAll(cfg: Config, kind: Request, w: World, spread: real, total: nat)
    requires cfg.jitterFrac >= 0.0 && spread == 1.0 + cfg.jitterFrac
    requires cfg.baseDelay + total == Backoff.Doubled(cfg.baseDelay, cfg.retryMax - 1)
    ensures (Rested(Loop(cfg, kind, 0, w).w.trace, kind) - Rested(w.trace, kind)) as real <= total as real * spread
  {
    hide Loop, LongestFrom, Requests, Rested;
    LoopRests(cfg, kind, 0, w);
    LongestTotal(cfg, 0, cfg.retryMax - 1, cfg.baseDelay, total, spread);
  }

  /// When a loop with solvers ends

  /** At most `d` passes between recording a block whose challenge was solved and the next look at the
      breaker. A caller can see to it: most of it is the time that the solvers are given. */
  predicate Within(script: seq<Round>, d: int) {
    forall k, l :: 0 <= k < |script| - 1 && l == k + 1 ==> script[k].dFail + script[k].dSolve + script[l].dCheck <= d
  }

  /** Solutions that bring no new user-agent. */
  predicate KeepAgent(script: seq<Round>, ua: string) {
    forall r :: r in script ==> KeepsAgent(r, ua)
  }

  predicate KeepsAgent(r: Round, ua: string) {
    var verdict := Solver.Outcome(r.answers);
    verdict.Solved? ==> verdict.solution.ua in {"", ua}
  }

  /** From `w` to `w'`, building a request leaves the breaker alone: a d.js request always finds its
      token in the cache. */
  predicate TokenLasts(cfg: Config, kind: Request, w: World, w': World, end: int) {
    kind.Djs? ==>
      && Holds(w, kind.query, end) && w'.now <= end
      && Undisturbed(cfg, w, w') && KeepAgent(w.script, w.ua)
  }

  lemma TokenLastsOn(cfg: Config, kind: Request, w: World, w1: World, w': World, end: int)
    requires TokenLasts(cfg, kind, w, w', end) && w.trace <= w1.trace <= w'.trace
    requires w1.cache == w.cache && w1.ua == w.ua && forall r :: r in w1.script ==> r in w.script
    ensures TokenLasts(cfg, kind, w1, w', end)
  {
    if kind.Djs? {
      PartUndisturbed(cfg, w, w1, w', w');
    }
  }

  /** Building a request with a token that lasts: nothing is sent, and nothing but time and trace moves. */
  lemma PrepareAlone(cfg: Config, kind: Request, w: World, r: Round, w': World, end: int)
    requires TokenLasts(cfg, kind, w, w', end) && Prepare(cfg, kind, w, r).w.now <= w'.now
    ensures var built := Prepare(cfg, kind, w, r);
            && Requests(built.w.trace) == Requests(w.trace) && !built.outcome.Unfinished?
            && built.w.script == w.script && built.w.breaker == w.breaker
            && built.w.cache == w.cache && built.w.ua == w.ua
  {
    hide Loop, Undisturbed, KeepAgent, Requests, Rested;
    if kind.Djs? {
      var w1 := Tick(w, r.dLookup);
      var key := CacheKey(kind.query, w1.ua);
      if Cached(w1, key) {
        Append(w1.trace, CacheHit(key, w1.cache[key].value, w1.now));
      }
    }
  }

  /** The attempts left, and the refunds that the breaker leaves. */
  function Bound(cfg: Config, p: Breaker.Policy, i: nat, w: World): int {
    cfg.retryMax - i + Max(1, p.threshold - w.breaker.consecutive)
  }

  lemma PunishBreaker(cfg: Config, p: Breaker.Policy, kind: Request, i: nat, w: World, r: Round)
    requires cfg.antiBot.breaker == Some(p)
    ensures var w', e := Punish(cfg, kind, i, w, r), BlockEvent(kind, i, w, r);
            && w'.breaker == Breaker.Step(p, w.breaker, Breaker.Block(e.checked, e.stamped))
            && w'.now == e.stamped + r.dFail
  {
  }

  /** A block never lowers the count. */
  lemma PunishCounts(cfg: Config, kind: Request, i: nat, w: World, r: Round)
    ensures Punish(cfg, kind, i, w, r).breaker.consecutive >= w.breaker.consecutive
  {
  }

  lemma RefusedAtOnce(cfg: Config, p: Breaker.Policy, kind: Request, i: nat, w: World)
    requires i < cfg.retryMax && cfg.antiBot.breaker == Some(p) && w.script != []
    requires Breaker.Open(w.breaker, w.now + w.script[0].dCheck)
    ensures var run := Loop(cfg, kind, i, w);
            run.outcome == Failed(Errors.CircuitOpen) && Requests(run.w.trace) == Requests(w.trace)
  {
    hide Pace, Prepare, Attempt, Requests, Rested;
    GateFree(cfg, kind, i, w.(script := w.script[1..]), w.script[0]);
  }

  /** A retry loop whose preparation leaves the breaker alone ends, even with a solver that always
      succeeds: it sends at most retryMax + max(1, threshold - consecutive) requests, and a script
      longer than that is never used up. For d.js requests, that is while the token lasts. */
  lemma {:induction false} LoopEnds(cfg: Config, p: Breaker.Policy, kind: Request, i: nat, w: World, end: int)
    requires i < cfg.retryMax
    requires cfg.antiBot.solving ==> cfg.antiBot.breaker == Some(p) && Within(w.script, p.cooldown - 1)
    requires TokenLasts(cfg, kind, w, Loop(cfg, kind, i, w).w, end)
    ensures var run := Loop(cfg, kind, i, w);
            && Requests(run.w.trace) <= Requests(w.trace) + Bound(cfg, p, i, w)
            && (|w.script| > Bound(cfg, p, i, w) ==> run.outcome != Unfinished)
    decreases |w.script|, 0
  {
    hide Gate, Pace, Prepare, Attempt, TokenLasts, Within, Requests, Rested;
    if w.script != [] {
      var r, w0, run := w.script[0], w.(script := w.script[1..]), Loop(cfg, kind, i, w);
      GateFree(cfg, kind, i, w0, r);
      var (w1, open) := Gate(cfg, kind, i, w0, r);
      if !open {
        PaceFree(cfg, w1, r);
        var (w2, cut) := Pace(cfg, w1, r);
        if !cut {
          TokenLastsOn(cfg, kind, w, w2, run.w, end);
          PrepareAlone(cfg, kind, w2, r, run.w, end);
          var built := Prepare(cfg, kind, w2, r);
          if built.outcome.Done? {
            assert w.script == [r] + built.w.script;
            TokenLastsOn(cfg, kind, w, built.w, run.w, end);
            HeadKeeps(cfg, kind, w, r, run.w, end);
            AttemptEnds(cfg, p, kind, i, built.outcome.value, built.w, r, end);
          }
        }
      }
    }
  }

  lemma HeadKeeps(cfg: Config, kind: Request, w: World, r: Round, w': World, end: int)
    requires TokenLasts(cfg, kind, w, w', end) && r in w.script
    ensures kind.Djs? ==> KeepsAgent(r, w.ua)
  {
  }

  lemma {:induction false} AttemptEnds(cfg: Config, p: Breaker.Policy, kind: Request, i: nat, token: string, w: World,
                                       r: Round, end: int)
    requires i < cfg.retryMax
    requires cfg.antiBot.solving ==> cfg.antiBot.breaker == Some(p) && Within([r] + w.script, p.cooldown - 1)
    requires TokenLasts(cfg, kind, w, Attempt(cfg, kind, i, token, w, r).w, end) && (kind.Djs? ==> KeepsAgent(r, w.ua))
    ensures var run := Attempt(cfg, kind, i, token, w, r);
            && Requests(run.w.trace) <= Requests(w.trace) + Bound(cfg, p, i, w)
            && (|w.script| >= Bound(cfg, p, i, w) ==> run.outcome != Unfinished)
    decreases |w.script|, 2
  {
    hide Send, Judge, Reward, Punish, Challenge, Recur, Loop, TokenLasts, KeepsAgent, Within, Requests, Rested;
    var run := Attempt(cfg, kind, i, token, w, r);
    SendCosts(cfg, kind, token, w, r);
    var (w1, fate) := Judge(cfg, i, Send(cfg, kind, token, w, r), r);
    OutcomeFree(cfg, kind, i, w1, r);
    if cfg.antiBot.solving {
      WithinTail(r, w.script, p.cooldown - 1);
    }
    match fate
    case Finish(_) =>
    case Again(e) =>
      TokenLastsOn(cfg, kind, w, w1, run.w, end);
      RecurEnds(cfg, p, kind, i, e, w1, r, end);
    case Handle(e) =>
      PunishCounts(cfg, kind, i, w1, r);
      if cfg.antiBot.breaker == Some(p) {
        PunishBreaker(cfg, p, kind, i, w1, r);
      }
      var w2 := Punish(cfg, kind, i, w1, r);
      ChallengeFree(cfg, w2, r);
      var (w3, solved) := Challenge(cfg, w2, r);
      HandledKeeps(cfg, kind, i, w, w1, r, run.w, end);
      TokenLastsOn(cfg, kind, w, if kind.Djs? then w3 else w, run.w, end);
      LastsTrivially(cfg, kind, w3, run.w, end);
      if !solved {
        RecurEnds(cfg, p, kind, i, e, w3, r, end);
      } else if w3.breaker.consecutive < p.threshold {
        LoopEnds(cfg, p, kind, i, w3, end);
      } else if w3.script != [] {
        SolvedIn(cfg, w2, r);
        WithinHead(r, w3.script, p.cooldown - 1);
        RefusedAtOnce(cfg, p, kind, i, w3);
      } else {
        LoopOnNothing(cfg, kind, i, w3);
      }
  }

  lemma LastsTrivially(cfg: Config, kind: Request, w: World, w': World, end: int)
    ensures !kind.Djs? ==> TokenLasts(cfg, kind, w, w', end)
  {
  }

  /** A block that did not throw the tokens away, and a solution that kept the user-agent. */
  lemma HandledKeeps(cfg: Config, kind: Request, i: nat, w: World, w1: World, r: Round, w': World, end: int)
    requires TokenLasts(cfg, kind, w, w', end) && (kind.Djs? ==> KeepsAgent(r, w.ua))
    requires w1.cache == w.cache && w1.ua == w.ua && w.trace <= w1.trace
    requires Challenge(cfg, Punish(cfg, kind, i, w1, r), r).0.trace <= w'.trace
    ensures var w3 := Challenge(cfg, Punish(cfg, kind, i, w1, r), r).0;
            kind.Djs? ==> w3.cache == w.cache && w3.ua == w.ua
  {
    hide Punish, KeepAgent;
    if kind.Djs? {
      PunishKeepsCache(cfg, kind, i, w1, r);
      assert w'.trace[|w1.trace|].Block?;
    }
  }

  lemma {:induction false} RecurEnds(cfg: Config, p: Breaker.Policy, kind: Request, i: nat, e: Errors.Error,
                                     w: World, r: Round, end: int)
    requires i < cfg.retryMax
    requires cfg.antiBot.solving ==> cfg.antiBot.breaker == Some(p) && Within(w.script, p.cooldown - 1)
    requires TokenLasts(cfg, kind, w, Recur(cfg, kind, i, e, w, r).w, end)
    ensures var run := Recur(cfg, kind, i, e, w, r);
            && Requests(run.w.trace) <= Requests(w.trace) + Bound(cfg, p, i, w) - 1
            && (|w.script| >= Bound(cfg, p, i, w) ==> run.outcome != Unfinished)
    decreases |w.script|, 1
  {
    hide Rest, Loop, TokenLasts, Within, Requests, Rested;
    if i < cfg.retryMax - 1 {
      RestCosts(cfg, kind, i, w, r);
      var (w1, cut) := Rest(cfg, kind, i, w, r);
      if !cut {
        TokenLastsOn(cfg, kind, w, w1, Recur(cfg, kind, i, e, w, r).w, end);
        LoopEnds(cfg, p, kind, i + 1, w1, end);
      }
    }
  }

  lemma WithinTail(r: Round, script: seq<Round>, d: int)
    requires Within([r] + script, d)
    ensures Within(script, d)
  {
    var all := [r] + script;
    forall k, l | 0 <= k < |script| - 1 && l == k + 1
      ensures script[k].dFail + script[k].dSolve + script[l].dCheck <= d
    {
      assert script[k] == all[k + 1] && script[l] == all[l + 1];
    }
  }

  lemma WithinHead(r: Round, script: seq<Round>, d: int)
    requires Within([r] + script, d) && script != []
    ensures r.dFail + r.dSolve + script[0].dCheck <= d
  {
    var all := [r] + script;
    assert all[0] == r && all[1] == script[0];
  }

  lemma SolvedIn(cfg: Config, w: World, r: Round)
    ensures Challenge(cfg, w, r).1 ==> Challenge(cfg, w, r).0.now == w.now + r.dSolve
  {
  }

  lemma LoopOnNothing(cfg: Config, kind: Request, i: nat, w: World)
    requires i < cfg.retryMax && w.script == []
    ensures Loop(cfg, kind, i, w) == Run(Unfinished, w)
  {
  }
}
