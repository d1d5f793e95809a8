/** Environments to exhibit: rounds that take no time of their own, and what an iteration makes of them. */
module Scripts {
  import opened Basics
  import opened Budgets
  import opened RetryLoop
  import opened RetrySafety
  import Breaker
  import Solver = ChallengeSolver

  /// Rounds

  /** A round that takes no time but `dCheck` and `dSolve`, and is answered like this; a challenge is
      solved, with this user-agent. */
  function Instantly(reply: Reply, dCheck: nat, dSolve: nat, agent: string): Round {
    Round(dCheck, 0, 0.0, false, 0, 0, false, 0, 0, 0, 0, reply, 0, false, 0, 0, 0,
          [Solver.Answer(true, Some(Solver.Solution(agent)), None)], dSolve, 0.0, false, 0)
  }

  /** A reply that every client takes for a block: by its status, or else by its body. */
  const FORBIDDEN: Reply := Response(200, 0, Body(true, "t", Items([]), []))

  const EMPTY: Body := Body(false, "t", Items([]), [])

  function Forbidden(dCheck: nat, dSolve: nat, agent: string): Round {
    Instantly(FORBIDDEN, dCheck, dSolve, agent)
  }

  function Welcome(ok: int, dCheck: nat): Round {
    Instantly(Response(ok, 0, EMPTY), dCheck, 0, "")
  }

  /** A client that can succeed at all: this status is a success and not configured as blocked. */
  predicate Succeeds(cfg: Config, ok: int) {
    200 <= ok < 300 && ok !in cfg.blocked
  }

  lemma OneWinner(answers: seq<Solver.Answer>, agent: string)
    requires answers == [Solver.Answer(true, Some(Solver.Solution(agent)), None)]
    ensures Solver.Outcome(answers) == Solver.Solved(Solver.Solution(agent))
  {
    assert Solver.FirstWinner(answers) == 0;
  }

  /// One iteration

  /** No breaker refuses this iteration. */
  predicate Admits(cfg: Config, w: World, dCheck: nat) {
    cfg.antiBot.breaker.Some? ==> !Breaker.Open(w.breaker, w.now + dCheck)
  }

  /** An iteration that no breaker refuses and no cancellation cuts short comes to its request. */
  lemma Admitted(cfg: Config, kind: Request, i: nat, w: World) returns (w2: World)
    requires i < cfg.retryMax && w.script != [] && !w.script[0].waitCut && Admits(cfg, w, w.script[0].dCheck)
    ensures var r := w.script[0];
            var built := Prepare(cfg, kind, w2, r);
            built.outcome.Done? ==> Loop(cfg, kind, i, w) == Attempt(cfg, kind, i, built.outcome.value, built.w, r)
    ensures Prepare(cfg, kind, w2, w.script[0]).outcome.Unfinished? ==> Loop(cfg, kind, i, w).outcome == Unfinished
    ensures w2.script == w.script[1..] && w2.now >= w.now + w.script[0].dCheck
    ensures Requests(w2.trace) == Requests(w.trace)
    ensures w2.breaker == w.breaker && w2.cache == w.cache && w2.ua == w.ua
    ensures Unpaced(cfg) ==> w2 == w.(script := w.script[1..], now := w.now + w.script[0].dCheck + w.script[0].dTurn)
  {
    hide Prepare, Attempt, Requests, Rested;
    var r, w0 := w.script[0], w.(script := w.script[1..]);
    GateFree(cfg, kind, i, w0, r);
    var w1 := Gate(cfg, kind, i, w0, r).0;
    assert !Gate(cfg, kind, i, w0, r).1 && w1.now == w.now + r.dCheck;
    hide Gate;
    PaceFree(cfg, w1, r);
    NotCut(cfg, w1, r);
    assert Unpaced(cfg) ==> Pace(cfg, w1, r).0 == Tick(w1, r.dTurn);
    hide Pace;
    w2 := Pace(cfg, w1, r).0;
  }

  /** A client that does not limit its own rate. */
  predicate Unpaced(cfg: Config) {
    cfg.antiBot.limiter == None && cfg.minGap <= 0
  }

  lemma NotCut(cfg: Config, w: World, r: Round)
    requires !r.waitCut
    ensures !Pace(cfg, w, r).1
  {
  }

  lemma SendIsInstant(cfg: Config, kind: Request, token: string, w: World, r: Round)
    requires r.dSend == 0 && r.dReply == 0
    ensures Send(cfg, kind, token, w, r).now == w.now
  {
  }

  lemma Agent(cfg: Config, w: World, r: Round, agent: string)
    requires cfg.antiBot.solving && Solver.Outcome(r.answers) == Solver.Solved(Solver.Solution(agent))
    ensures var w' := Challenge(cfg, w, r).0;
            && w'.now == w.now + r.dSolve && w'.ua == if agent != "" then agent else w.ua
  {
  }

  /** A clean reply ends the loop at once, and restarts the block count. */
  lemma CleanStep(cfg: Config, kind: Request, i: nat, token: string, w: World, r: Round, ok: int, body: Body)
    requires Succeeds(cfg, ok) && i < cfg.retryMax && !body.flagged
    requires r == Instantly(Response(ok, 0, body), r.dCheck, 0, "")
    ensures var run := Attempt(cfg, kind, i, token, w, r);
            && run.outcome == Done(body)
            && run.w.script == w.script && run.w.now == w.now && run.w.cache == w.cache && run.w.ua == w.ua
            && (cfg.antiBot.breaker.Some? ==> run.w.breaker == Breaker.FRESH)
            && Requests(run.w.trace) == Requests(w.trace) + 1 && EndsClean(run.w, kind, body)
            && w.trace < run.w.trace && run.w.trace[|w.trace|].Sent?
            && run.w.trace[|w.trace|].kind == kind && run.w.trace[|w.trace|].token == token
  {
    hide Loop, Punish, Challenge, Recur, Requests, Rested;
    var w1 := Send(cfg, kind, token, w, r);
    SendCosts(cfg, kind, token, w, r);
    SendIsInstant(cfg, kind, token, w, r);
    OutcomeFree(cfg, kind, i, w1, r);
    RewardShape(cfg, kind, i, w1, r);
    assert Judge(cfg, i, w1, r) == (w1, Finish(Done(body)));
    hide Send, Judge, Reward;
  }

  lemma PrepareNothing(cfg: Config, kind: Request, w: World, r: Round)
    requires !kind.Djs? && !r.buildFails
    ensures Prepare(cfg, kind, w, r) == Run(Done(""), w)
  {
  }

  lemma PrepareIsFetch(cfg: Config, kind: Request, w: World, r: Round)
    requires kind.Djs? && !r.buildFails
    ensures Prepare(cfg, kind, w, r) == Fetch(cfg, kind.query, w, r)
  {
    hide Fetch;
  }

  /** A request whose token is in the cache. */
  lemma Found(cfg: Config, query: string, w: World, r: Round, key: string)
    requires key == CacheKey(query, w.ua) && Cached(w, key) && r.dLookup == 0
    ensures Fetch(cfg, query, w, r) == Run(Done(w.cache[key].value), Note(w, CacheHit(key, w.cache[key].value, w.now)))
  {
    hide Loop;
    assert Tick(w, 0) == w;
  }
}
