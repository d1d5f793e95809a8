/** Exactly when the breaker sees to it that the retry loop ends, whatever the environment answers. */
module Termination {
  import opened Basics
  import opened Budgets
  import opened RetryLoop
  import Breaker
  import Endings
  import Errors
  import Livelocks
  import Scripts

  /// Token and HTML requests

  /** The policy of the client's breaker; without one, any. */
  function PolicyOf(cfg: Config): Breaker.Policy {
    if cfg.antiBot.breaker.Some? then cfg.antiBot.breaker.value else Breaker.Policy(1, 1)
  }

  /** With this script the loop comes to an end, unless the script is too short for it. */
  predicate Finishes(cfg: Config, kind: Request, i: nat, w: World)
    requires i < cfg.retryMax
  {
    |w.script| > Endings.Bound(cfg, PolicyOf(cfg), i, w) ==> Loop(cfg, kind, i, w).outcome != Unfinished
  }

  /** Loops for tokens and HTML pages always end within their bound if and only if no solvers are
      configured, or there is a breaker and the latency `d` between recording a block and the next look
      at it, solving included, is below the cooldown. */
  lemma LatencyDecides(cfg: Config, d: nat)
    ensures (forall kind: Request, i: nat, w: World ::
               i < cfg.retryMax && !kind.Djs? && Endings.Within(w.script, d) ==> Finishes(cfg, kind, i, w))
            <==> !cfg.antiBot.solving || (cfg.antiBot.breaker.Some? && d < cfg.antiBot.breaker.value.cooldown)
  {
    hide Finishes;
    if Livelocks.Outlasts(cfg, d) && cfg.antiBot.solving {
      var w := SlowWorld(cfg, d);
      assert !Finishes(cfg, Html("q", 0), 0, w);
    } else {
      forall kind: Request, i: nat, w: World | i < cfg.retryMax && !kind.Djs? && Endings.Within(w.script, d)
        ensures Finishes(cfg, kind, i, w)
      {
        Ends(cfg, kind, i, w, d);
      }
    }
  }

  lemma Ends(cfg: Config, kind: Request, i: nat, w: World, d: nat)
    requires i < cfg.retryMax && !kind.Djs? && Endings.Within(w.script, d)
    requires !cfg.antiBot.solving || !Livelocks.Outlasts(cfg, d)
    ensures Finishes(cfg, kind, i, w)
  {
    hide Loop;
    Endings.LoopEnds(cfg, PolicyOf(cfg), kind, i, w, 0);
  }

  lemma SlowWorld(cfg: Config, d: nat) returns (w: World)
    requires cfg.antiBot.solving && Livelocks.Outlasts(cfg, d)
    ensures Endings.Within(w.script, d) && !Finishes(cfg, Html("q", 0), 0, w)
  {
    hide Loop;
    var n := cfg.retryMax + PolicyOf(cfg).threshold + 1;
    w := Initial(cfg, 1, Livelocks.Slow(n, 0, d));
    SlowIsWithin(n, d);
    Livelocks.SlowSolverNeverEnds(cfg, Html("q", 0), 0, w, n, 0, d);
  }

  lemma {:induction false} SlowIsWithin(n: nat, d: nat)
    ensures Endings.Within(Livelocks.Slow(n, 0, d), d)
    ensures forall r :: r in Livelocks.Slow(n, 0, d) ==> r.dCheck == r.dFail == 0 && r.dSolve == d
  {
    if n > 0 {
      SlowIsWithin(n - 1, d);
    }
  }

  /// Requests for d.js

  /** Blocks are recorded and challenges answered within `solve`; looks at the breaker come within
      `check` after an iteration. */
  predicate Quick(script: seq<Round>, solve: nat, check: nat) {
    forall r :: r in script ==> QuickRound(r, solve, check)
  }

  predicate QuickRound(r: Round, solve: nat, check: nat) {
    r.dFail + r.dSolve <= solve && r.dCheck <= check
  }

  /** A client that takes every reply for a block or a failure: all statuses of success are configured
      as blocked. */
  predicate Stuck(cfg: Config) {
    forall status :: 200 <= status < 300 ==> status in cfg.blocked
  }

  /** The conditions under which solved challenges cannot go on forever: there are no solvers; or there
      is a breaker that stays open for longer than solving and checking take, and either a single block
      opens it, or there is never a success to restart its count. */
  predicate Ending(cfg: Config, p: Breaker.Policy, solve: nat, check: nat) {
    cfg.antiBot.solving ==>
      cfg.antiBot.breaker == Some(p) && solve + check < p.cooldown && (p.threshold == 1 || Stuck(cfg))
  }

  /** How many solved challenges the breaker leaves. */
  function Solves(cfg: Config, p: Breaker.Policy, w: World): (n: nat)
    ensures 1 <= n <= p.threshold
  {
    if cfg.antiBot.solving && p.threshold > 1 then Max(1, p.threshold - w.breaker.consecutive) else 1
  }

  /** A run that succeeds uses up at most `most` rounds, any other at most `more`; it is unfinished only
      when no round is left. */
  predicate UsesUp<T>(script: seq<Round>, most: nat, more: nat, run: Run<T>) {
    && |script| <= |run.w.script| + (if run.outcome.Done? then most else more)
    && (run.outcome.Unfinished? ==> run.w.script == [])
  }

  lemma {:induction false} CostGrows(cfg: Config, kind: Request, m: nat, n: nat)
    requires m <= n
    ensures Cost(cfg, kind, m) + (n - m) <= Cost(cfg, kind, n)
  {
    if m < n {
      CostGrows(cfg, kind, m, n - 1);
    }
  }

  lemma {:induction false} LoopUses(cfg: Config, p: Breaker.Policy, kind: Request, i: nat, w: World,
                                    solve: nat, check: nat)
    requires i < cfg.retryMax
    requires Ending(cfg, p, solve, check) && Quick(w.script, solve, check)
    ensures var run, n := Loop(cfg, kind, i, w), cfg.retryMax - i;
            && UsesUp(w.script, Cost(cfg, kind, n), Cost(cfg, kind, n + Solves(cfg, p, w)), run)
            && Quick(run.w.script, solve, check) && (Stuck(cfg) ==> !run.outcome.Done?)
    decreases |w.script|, 0
  {
    hide Gate, Pace, Prepare, Attempt, Ending, QuickRound, Stuck, Cost, Solves;
    var n, left := cfg.retryMax - i, Solves(cfg, p, w);
    CostSteps(cfg, kind, n);
    CostSteps(cfg, kind, n + left);
    CostGrows(cfg, kind, 0, n - 1 + left);
    if w.script != [] {
      var r, w0 := w.script[0], w.(script := w.script[1..]);
      var (w1, open) := Gate(cfg, kind, i, w0, r);
      if !open {
        var (w2, cut) := Pace(cfg, w1, r);
        SameSolves(cfg, p, w, w2);
        if !cut {
          PrepareUses(cfg, p, kind, w2, r, solve, check);
          var built := Prepare(cfg, kind, w2, r);
          if built.outcome.Done? {
            AttemptUses(cfg, p, kind, i, built.outcome.value, built.w, r, solve, check);
            CostGrows(cfg, kind, n - 1 + Solves(cfg, p, built.w), n - 1 + left);
          }
        }
      }
    }
  }

  lemma SameSolves(cfg: Config, p: Breaker.Policy, w: World, w': World)
    requires w'.breaker == w.breaker
    ensures Solves(cfg, p, w') == Solves(cfg, p, w)
  {
  }

  lemma CostSteps(cfg: Config, kind: Request, n: nat)
    requires n > 0
    ensures Cost(cfg, kind, n) == Cost(cfg, kind, n - 1) + PerAttempt(cfg, kind) && Cost(cfg, kind, 0) == 0
  {
  }

  /** Building a d.js request may use up a whole token loop. A client that never succeeds only gets past
      it with a cached token, which leaves the breaker alone. */
  lemma {:induction false} PrepareUses(cfg: Config, p: Breaker.Policy, kind: Request, w: World, r: Round,
                                       solve: nat, check: nat)
    requires Ending(cfg, p, solve, check) && Quick(w.script, solve, check)
    ensures var run, most := Prepare(cfg, kind, w, r), PerAttempt(cfg, kind) - 1;
            && UsesUp(w.script, most, most + Solves(cfg, p, w), run)
            && Quick(run.w.script, solve, check)
            && (run.outcome.Done? ==> Solves(cfg, p, run.w) <= Solves(cfg, p, w))
    decreases |w.script|, 2
  {
    hide Loop, QuickRound, Stuck;
    if kind.Djs? {
      var w1 := Tick(w, r.dLookup);
      if !Cached(w1, CacheKey(kind.query, w1.ua)) {
        LoopUses(cfg, p, Vqd(kind.query), 0, w1, solve, check);
        CostIsProduct(cfg, Vqd(kind.query), cfg.retryMax);
        CostIsProduct(cfg, Vqd(kind.query), cfg.retryMax + Solves(cfg, p, w));
      }
    }
  }

  lemma {:induction false} AttemptUses(cfg: Config, p: Breaker.Policy, kind: Request, i: nat, token: string, w: World,
                                       r: Round, solve: nat, check: nat)
    requires i < cfg.retryMax
    requires Ending(cfg, p, solve, check) && Quick(w.script, solve, check) && QuickRound(r, solve, check)
    ensures var run, n := Attempt(cfg, kind, i, token, w, r), cfg.retryMax - i - 1;
            && UsesUp(w.script, Cost(cfg, kind, n), Cost(cfg, kind, n + Solves(cfg, p, w)), run)
            && Quick(run.w.script, solve, check) && (Stuck(cfg) ==> !run.outcome.Done?)
    decreases |w.script|, 2
  {
    hide Send, Judge, Reward, Punish, Challenge, Recur, Loop, Ending, QuickRound, Stuck, Cost;
    var (w1, fate) := Judge(cfg, i, Send(cfg, kind, token, w, r), r);
    CostGrows(cfg, kind, 0, cfg.retryMax - i - 1 + Solves(cfg, p, w));
    match fate
    case Finish(_) =>
      NeverDone(cfg, i, Send(cfg, kind, token, w, r), r);
    case Again(e) =>
      RecurUses(cfg, p, kind, i, e, w1, r, solve, check);
    case Handle(e) =>
      var w2 := Punish(cfg, kind, i, w1, r);
      Endings.PunishCounts(cfg, kind, i, w1, r);
      var (w3, solved) := Challenge(cfg, w2, r);
      if !solved {
        RecurUses(cfg, p, kind, i, e, w3, r, solve, check);
        CostGrows(cfg, kind, cfg.retryMax - i - 1 + Solves(cfg, p, w3), cfg.retryMax - i - 1 + Solves(cfg, p, w));
      } else if w3.script == [] {
        Endings.LoopOnNothing(cfg, kind, i, w3);
      } else if w3.breaker.consecutive < p.threshold {
        SolvedCounts(cfg, p, kind, i, w1, r, solve, check);
        LoopUses(cfg, p, kind, i, w3, solve, check);
        OnlyWhenStuck(cfg, p, solve, check);
      } else {
        SolvedCounts(cfg, p, kind, i, w1, r, solve, check);
        SolvedOpens(cfg, p, kind, i, w1, r, solve, check);
        Endings.RefusedAtOnce(cfg, p, kind, i, w3);
        RefusalUsesOne(cfg, kind, i, w3);
      }
  }

  lemma NeverDone(cfg: Config, i: nat, w: World, r: Round)
    ensures Stuck(cfg) ==> var fate := Judge(cfg, i, w, r).1; !(fate.Finish? && fate.outcome.Done?)
  {
  }

  lemma OnlyWhenStuck(cfg: Config, p: Breaker.Policy, solve: nat, check: nat)
    requires Ending(cfg, p, solve, check) && cfg.antiBot.solving
    ensures p.threshold == 1 || Stuck(cfg)
  {
  }

  lemma SolvedCounts(cfg: Config, p: Breaker.Policy, kind: Request, i: nat, w: World, r: Round, solve: nat, check: nat)
    requires Ending(cfg, p, solve, check) && cfg.antiBot.solving
    ensures cfg.antiBot.breaker == Some(p)
    ensures Punish(cfg, kind, i, w, r).breaker.consecutive == w.breaker.consecutive + 1
  {
    hide Stuck;
    Endings.PunishBreaker(cfg, p, kind, i, w, r);
  }

  /** After a solved challenge that reached the threshold, the next look finds the breaker open. */
  lemma SolvedOpens(cfg: Config, p: Breaker.Policy, kind: Request, i: nat, w: World, r: Round, solve: nat, check: nat)
    requires Ending(cfg, p, solve, check) && QuickRound(r, solve, check)
    requires Challenge(cfg, Punish(cfg, kind, i, w, r), r).1 && w.breaker.consecutive + 1 >= p.threshold
    requires w.script != [] && Quick(w.script, solve, check)
    ensures var w' := Challenge(cfg, Punish(cfg, kind, i, w, r), r).0;
            Breaker.Open(w'.breaker, w'.now + w'.script[0].dCheck)
  {
    Endings.PunishBreaker(cfg, p, kind, i, w, r);
    Endings.SolvedIn(cfg, Punish(cfg, kind, i, w, r), r);
    assert QuickRound(w.script[0], solve, check);
    hide Punish, Challenge, Stuck;
  }

  lemma RefusalUsesOne(cfg: Config, kind: Request, i: nat, w: World)
    requires i < cfg.retryMax && w.script != [] && cfg.antiBot.breaker.Some?
    requires Breaker.Open(w.breaker, w.now + w.script[0].dCheck)
    ensures Loop(cfg, kind, i, w).w.script == w.script[1..]
  {
    hide Pace, Prepare, Attempt;
  }

  lemma {:induction false} RecurUses(cfg: Config, p: Breaker.Policy, kind: Request, i: nat, e: Errors.Error, w: World,
                                     r: Round, solve: nat, check: nat)
    requires i < cfg.retryMax
    requires Ending(cfg, p, solve, check) && Quick(w.script, solve, check)
    ensures var run, n := Recur(cfg, kind, i, e, w, r), cfg.retryMax - i - 1;
            && UsesUp(w.script, Cost(cfg, kind, n), Cost(cfg, kind, n + Solves(cfg, p, w)), run)
            && Quick(run.w.script, solve, check) && (Stuck(cfg) ==> !run.outcome.Done?)
    decreases |w.script|, 1
  {
    hide Rest, Loop, Ending, QuickRound, Stuck, Cost;
    CostGrows(cfg, kind, 0, cfg.retryMax - i - 1 + Solves(cfg, p, w));
    if i < cfg.retryMax - 1 {
      var (w1, cut) := Rest(cfg, kind, i, w, r);
      if !cut {
        LoopUses(cfg, p, kind, i + 1, w1, solve, check);
      }
    }
  }

  /** No more rounds than this: every attempt and every solved challenge with a fetch of its own. */
  function Ceiling(cfg: Config): nat {
    (cfg.retryMax + PolicyOf(cfg).threshold) * (cfg.retryMax + 1)
  }

  predicate DjsFinishes(cfg: Config, query: string, offset: int, w: World) {
    |w.script| > Ceiling(cfg) ==> Loop(cfg, Djs(query, offset), 0, w).outcome != Unfinished
  }

  /** Loops for d.js requests always end within the ceiling if and only if no solvers are configured, or
      there is a breaker, solving and checking together take less than its cooldown, and a single block
      opens it. Any larger threshold can be undermined, since every fetch that succeeds restarts the
      count; only a client for which no reply is a success is safe from that. */
  lemma ThresholdDecides(cfg: Config, solve: nat, check: nat)
    ensures (forall query, offset, w: World :: Quick(w.script, solve, check) ==> DjsFinishes(cfg, query, offset, w))
            <==> !cfg.antiBot.solving
                 || (cfg.antiBot.breaker.Some?
                     && var p := cfg.antiBot.breaker.value;
                        solve + check < p.cooldown && (p.threshold == 1 || Stuck(cfg)))
  {
    hide DjsFinishes, Quick, Stuck;
    if Ending(cfg, PolicyOf(cfg), solve, check) {
      forall query, offset, w: World | Quick(w.script, solve, check) ensures DjsFinishes(cfg, query, offset, w) {
        DjsEnds(cfg, query, offset, w, solve, check);
      }
    } else {
      var w := EndlessWorld(cfg, solve, check);
      assert !DjsFinishes(cfg, "q", 0, w);
    }
  }

  lemma DjsEnds(cfg: Config, query: string, offset: int, w: World, solve: nat, check: nat)
    requires Ending(cfg, PolicyOf(cfg), solve, check) && Quick(w.script, solve, check)
    ensures DjsFinishes(cfg, query, offset, w)
  {
    hide Loop, Ending, Quick, Cost, Stuck, PolicyOf;
    var kind, p := Djs(query, offset), PolicyOf(cfg);
    LoopUses(cfg, p, kind, 0, w, solve, check);
    CostIsProduct(cfg, kind, cfg.retryMax + p.threshold);
    CostGrows(cfg, kind, cfg.retryMax + Solves(cfg, p, w), cfg.retryMax + p.threshold);
  }

  lemma EndlessWorld(cfg: Config, solve: nat, check: nat) returns (w: World)
    requires !Ending(cfg, PolicyOf(cfg), solve, check)
    ensures Quick(w.script, solve, check) && !DjsFinishes(cfg, "q", 0, w)
  {
    hide Loop, Quick;
    var n := Ceiling(cfg);
    if Livelocks.Outlasts(cfg, solve + check) {
      w := Initial(cfg, 1, Livelocks.Slow(n + 1, check, solve));
      SlowIsQuick(n + 1, check, solve);
      Livelocks.SlowFetchNeverEnds(cfg, "q", 0, 0, w, n, check, solve);
    } else {
      var ok := SomeSuccess(cfg);
      w := Initial(cfg, 1, Livelocks.Alternating(n, true, |cfg.ua|, ok, check, solve));
      AlternatingIsQuick(n, |cfg.ua|, ok, check, solve);
      Livelocks.NestedFetchNeverEnds(cfg, PolicyOf(cfg), "q", 0, 0, w, n, true, ok, check, solve);
    }
  }

  lemma SomeSuccess(cfg: Config) returns (ok: int)
    requires !Stuck(cfg)
    ensures Scripts.Succeeds(cfg, ok)
  {
    ok :| 200 <= ok < 300 && ok !in cfg.blocked;
  }

  lemma {:induction false} SlowIsQuick(n: nat, check: nat, solve: nat)
    ensures Quick(Livelocks.Slow(n, check, solve), solve, check)
  {
    if n > 0 {
      SlowIsQuick(n - 1, check, solve);
    }
  }

  lemma {:induction false} AlternatingIsQuick(n: nat, length: nat, ok: int, check: nat, solve: nat)
    ensures Quick(Livelocks.Alternating(n, true, length, ok, check, solve), solve, check)
    decreases n
  {
    hide QuickRound, Scripts.Forbidden, Scripts.Welcome;
    if n > 0 {
      InstantIsQuick(check, solve, Livelocks.Agents(length + 1), ok);
      AlternatingIsQuick(n - 1, length + 1, ok, check, solve);
    }
  }

  lemma InstantIsQuick(check: nat, solve: nat, agent: string, ok: int)
    ensures QuickRound(Scripts.Forbidden(check, solve, agent), solve, check)
    ensures QuickRound(Scripts.Welcome(ok, check), solve, check)
  {
  }
}
