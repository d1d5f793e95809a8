/** Two ways in which the retry loop never ends although a circuit breaker is configured. They show
    that both conditions of `Termination` are needed. */
module Livelocks {
  import opened Basics
  import opened Budgets
  import opened RetryLoop
  import opened RetrySafety
  import opened Scripts
  import Breaker
  import Endings

  /// A challenge that is always solved

  /** What a blocked and then solved attempt does to the world. */
  function Solved(cfg: Config, kind: Request, i: nat, token: string, w: World, r: Round): World {
    Challenge(cfg, Punish(cfg, kind, i, Send(cfg, kind, token, w, r), r), r).0
  }

  lemma SolvedStep(cfg: Config, p: Breaker.Policy, kind: Request, i: nat, token: string, w: World,
                   dCheck: nat, dSolve: nat, agent: string)
    requires cfg.antiBot.solving && i < cfg.retryMax
    ensures var r := Forbidden(dCheck, dSolve, agent);
            var w' := Solved(cfg, kind, i, token, w, r);
            && Attempt(cfg, kind, i, token, w, r) == Loop(cfg, kind, i, w')
            && w'.script == w.script && w'.now == w.now + dSolve
            && (cfg.antiBot.breaker == Some(p) ==>
                  w'.breaker == Breaker.Step(p, w.breaker, Breaker.Block(w.now, w.now)))
            && Requests(w'.trace) == Requests(w.trace) + 1
            && w'.cache == (if cfg.antiBot.vqdInvalidate then map[] else w.cache)
            && w'.ua == (if agent != "" then agent else w.ua)
  {
    hide Loop, Reward, Punish, Recur, Requests, Rested;
    var r := Forbidden(dCheck, dSolve, agent);
    var w1 := Send(cfg, kind, token, w, r);
    SendCosts(cfg, kind, token, w, r);
    SendIsInstant(cfg, kind, token, w, r);
    OutcomeFree(cfg, kind, i, w1, r);
    if cfg.antiBot.breaker == Some(p) {
      Endings.PunishBreaker(cfg, p, kind, i, w1, r);
    }
    PunishShape(cfg, kind, i, w1, r);
    var w2 := Punish(cfg, kind, i, w1, r);
    ChallengeFree(cfg, w2, r);
    OneWinner(r.answers, agent);
    Agent(cfg, w2, r, agent);
    assert Judge(cfg, i, w1, r).1.Handle? && Judge(cfg, i, w1, r).0 == w1;
    hide Send, Judge, Challenge;
  }

  /// A solver slower than the cooldown

  function Slow(n: nat, dCheck: nat, dSolve: nat): (script: seq<Round>)
    ensures |script| == n
  {
    if n == 0 then [] else [Forbidden(dCheck, dSolve, "")] + Slow(n - 1, dCheck, dSolve)
  }

  /** No breaker stays open for this long. */
  predicate Outlasts(cfg: Config, d: nat) {
    cfg.antiBot.breaker.Some? ==> d >= cfg.antiBot.breaker.value.cooldown
  }

  /** Without a breaker, or when solving and checking together take as long as its cooldown, so that it
      opens and closes again during every solve, the loop goes on as long as the environment does: for
      every client with solvers and every `n`, `n` blocked requests do not end it. */
  lemma {:induction false} SlowSolverNeverEnds(cfg: Config, kind: Request, i: nat, w: World,
                                               n: nat, dCheck: nat, dSolve: nat)
    requires cfg.antiBot.solving && !kind.Djs? && i < cfg.retryMax
    requires Outlasts(cfg, dSolve + dCheck) && w.script == Slow(n, dCheck, dSolve) && Admits(cfg, w, dCheck)
    ensures var run := Loop(cfg, kind, i, w);
            run.outcome == Unfinished && Requests(run.w.trace) == Requests(w.trace) + n
    decreases n
  {
    hide Loop, Prepare, Attempt, Solved, Requests, Rested;
    if n == 0 {
      Endings.LoopOnNothing(cfg, kind, i, w);
    } else {
      assert w.script[1..] == Slow(n - 1, dCheck, dSolve);
      var w2 := Admitted(cfg, kind, i, w);
      PrepareNothing(cfg, kind, w2, w.script[0]);
      var p := if cfg.antiBot.breaker.Some? then cfg.antiBot.breaker.value else Breaker.Policy(1, 1);
      SolvedStep(cfg, p, kind, i, "", w2, dCheck, dSolve, "");
      SlowSolverNeverEnds(cfg, kind, i, Solved(cfg, kind, i, "", w2, w.script[0]), n - 1, dCheck, dSolve);
    }
  }

  /** The same for a d.js loop: it never gets past its first token fetch. */
  lemma SlowFetchNeverEnds(cfg: Config, query: string, offset: int, i: nat, w: World,
                           n: nat, dCheck: nat, dSolve: nat)
    requires cfg.antiBot.solving && i < cfg.retryMax
    requires Outlasts(cfg, dSolve + dCheck) && w.script == Slow(n + 1, dCheck, dSolve)
    requires Admits(cfg, w, dCheck) && Unknown(w, query)
    ensures Loop(cfg, Djs(query, offset), i, w).outcome == Unfinished
  {
    hide Loop, Prepare, Fetch, Attempt, Cached, Requests, Rested;
    var kind, r := Djs(query, offset), w.script[0];
    assert w.script[1..] == Slow(n, dCheck, dSolve);
    var w2 := Admitted(cfg, kind, i, w);
    PrepareIsFetch(cfg, kind, w2, r);
    NotInCache(query, w2);
    NotCached(query, w2);
    SlowSolverNeverEnds(cfg, Vqd(query), 0, w2, n, dCheck, dSolve);
    FetchHangs(cfg, query, w2, r);
  }

  lemma FetchHangs(cfg: Config, query: string, w: World, r: Round)
    requires r.dLookup == 0 && !Cached(w, CacheKey(query, w.ua))
    requires Loop(cfg, Vqd(query), 0, w).outcome == Unfinished
    ensures Fetch(cfg, query, w, r).outcome == Unfinished
  {
    hide Loop, Cached;
    assert Tick(w, 0) == w;
  }

  /// A token fetch that restarts the count

  /** A user-agent of this length. */
  function Agents(n: nat): (ua: string)
    ensures |ua| == n
  {
    if n == 0 then "" else Agents(n - 1) + "x"
  }

  /** Rounds for the d.js loop and, in between, for the token fetch nested in it. The solver answers
      with a longer user-agent every time, or with none. */
  function Alternating(n: nat, renames: bool, length: nat, ok: int, dCheck: nat, dSolve: nat): (script: seq<Round>)
    ensures |script| == 2 * n
    decreases n
  {
    if n == 0 then []
    else
      [Forbidden(dCheck, dSolve, if renames then Agents(length + 1) else ""), Welcome(ok, dCheck)]
      + Alternating(n - 1, renames, if renames then length + 1 else length, ok, dCheck, dSolve)
  }

  /** No token is cached under a key as long as the present one. */
  predicate Unknown(w: World, query: string) {
    forall key :: key in w.cache ==> |key| < |CacheKey(query, w.ua)|
  }

  /** A trace that ends with the clean response to a token request and the storing of its token. */
  predicate StoredLast(tr: seq<Event>, query: string, e: Event) {
    && |tr| >= 2 && tr[|tr| - 1] == e
    && tr[|tr| - 2].Clean? && tr[|tr| - 2].kind == Vqd(query)
  }

  /** The token loop: one clean request, which also restarts the block count. */
  lemma TokenLoop(cfg: Config, p: Breaker.Policy, query: string, w: World, ok: int, dCheck: nat)
    requires cfg.antiBot.breaker == Some(p) && Succeeds(cfg, ok)
    requires Admits(cfg, w, dCheck) && w.script != [] && w.script[0] == Welcome(ok, dCheck)
    ensures var run := Loop(cfg, Vqd(query), 0, w);
            && run.outcome == Done(EMPTY) && run.w.script == w.script[1..] && run.w.now >= w.now
            && run.w.breaker == Breaker.FRESH && run.w.cache == w.cache && run.w.ua == w.ua
            && Requests(run.w.trace) == Requests(w.trace) + 1 && EndsClean(run.w, Vqd(query), EMPTY)
            && (Unpaced(cfg) ==> run.w.now == w.now + dCheck)
  {
    hide Loop, Prepare, Attempt, Admits, EndsClean, Requests, Rested;
    var kind := Vqd(query);
    var w2 := Admitted(cfg, kind, 0, w);
    PrepareNothing(cfg, kind, w2, w.script[0]);
    CleanStep(cfg, kind, 0, "", w2, w.script[0], ok, EMPTY);
  }

  /** The fetch nested in an iteration. */
  lemma FetchStep(cfg: Config, p: Breaker.Policy, query: string, w: World, r: Round, ok: int, dCheck: nat)
    requires cfg.antiBot.breaker == Some(p) && Succeeds(cfg, ok) && r.dLookup == 0
    requires CacheKey(query, w.ua) !in w.cache
    requires Admits(cfg, w, dCheck) && w.script != [] && w.script[0] == Welcome(ok, dCheck)
    ensures var run := Fetch(cfg, query, w, r);
            && run.outcome == Done("t") && run.w.script == w.script[1..] && run.w.now >= w.now
            && run.w.breaker == Breaker.FRESH && run.w.ua == w.ua
            && run.w.cache == w.cache[CacheKey(query, w.ua) := Token("t", w.now + cfg.vqdTTL)]
            && Requests(run.w.trace) == Requests(w.trace) + 1
            && StoredLast(run.w.trace, query, Stored(CacheKey(query, w.ua), "t", w.now))
            && (Unpaced(cfg) ==> run.w.now == w.now + dCheck)
  {
    NotCached(query, w);
    hide Loop, Fetch, Admits, Cached, EndsClean, CacheKey, Requests, Rested;
    TokenLoop(cfg, p, query, w, ok, dCheck);
    FetchesAnew(cfg, query, w, r);
    var run := Loop(cfg, Vqd(query), 0, w);
    EndsInStore(run.w, query, Stored(CacheKey(query, w.ua), "t", w.now));
    Append(run.w.trace, Stored(CacheKey(query, w.ua), "t", w.now));
  }

  lemma NotCached(query: string, w: World)
    ensures CacheKey(query, w.ua) !in w.cache ==> !Cached(w, CacheKey(query, w.ua))
  {
  }

  lemma NotInCache(query: string, w: World)
    requires Unknown(w, query)
    ensures CacheKey(query, w.ua) !in w.cache
  {
  }

  lemma FetchesAnew(cfg: Config, query: string, w: World, r: Round)
    requires r.dLookup == 0 && !Cached(w, CacheKey(query, w.ua))
    requires Loop(cfg, Vqd(query), 0, w).outcome == Done(EMPTY)
    ensures Fetch(cfg, query, w, r)
            == Run(Done("t"), Store(cfg, CacheKey(query, w.ua), "t", w.now, Loop(cfg, Vqd(query), 0, w).w))
  {
    hide Loop, Cached, Store;
    assert Tick(w, 0) == w;
  }

  lemma EndsInStore(w: World, query: string, e: Event)
    requires EndsClean(w, Vqd(query), EMPTY)
    ensures StoredLast(w.trace + [e], query, e)
  {
  }

  /** One round trip: a token request that succeeds and a d.js request that is blocked and solved. */
  lemma RoundTrip(cfg: Config, p: Breaker.Policy, query: string, offset: int, i: nat, w: World,
                  ok: int, dCheck: nat, dSolve: nat, agent: string) returns (w': World)
    requires cfg.antiBot.solving && cfg.antiBot.breaker == Some(p) && Succeeds(cfg, ok) && i < cfg.retryMax
    requires |w.script| >= 2 && Unknown(w, query) && Admits(cfg, w, dCheck)
    requires w.script[0] == Forbidden(dCheck, dSolve, agent) && w.script[1] == Welcome(ok, dCheck)
    requires p.threshold > 1 || dSolve + dCheck >= p.cooldown
    requires |agent| > |w.ua| || (agent == "" && cfg.antiBot.vqdInvalidate)
    ensures Loop(cfg, Djs(query, offset), i, w) == Loop(cfg, Djs(query, offset), i, w')
    ensures w'.script == w.script[2..] && Requests(w'.trace) == Requests(w.trace) + 2
    ensures w'.ua == if agent != "" then agent else w.ua
    ensures Admits(cfg, w', dCheck) && Unknown(w', query)
  {
    hide Loop, Prepare, Fetch, Attempt, Solved, Requests, Rested;
    var kind, r := Djs(query, offset), w.script[0];
    var w2 := Admitted(cfg, kind, i, w);
    NotInCache(query, w2);
    FetchStep(cfg, p, query, w2, r, ok, dCheck);
    PrepareIsFetch(cfg, kind, w2, r);
    var built := Fetch(cfg, query, w2, r);
    SolvedStep(cfg, p, kind, i, "t", built.w, dCheck, dSolve, agent);
    w' := Solved(cfg, kind, i, "t", built.w, r);
    assert w.script[1..][1..] == w.script[2..];
    StillUnknown(w, w', query, Token("t", w2.now + cfg.vqdTTL));
  }

  lemma StillUnknown(w: World, w': World, query: string, t: Token)
    requires Unknown(w, query)
    requires w'.cache == map[]
             || (|w'.ua| > |w.ua| && w'.cache == w.cache[CacheKey(query, w.ua) := t])
    ensures Unknown(w', query)
  {
  }

  /** When every retry of a d.js loop has to fetch a token, each fetch restarts the block count. With
      token requests always answered, d.js requests always blocked and a solver that always succeeds,
      the loop then goes on as long as the environment does. A retry has to fetch when blocks throw
      the tokens away, or when the solver comes with a new user-agent every time (`renames`), which
      changes the cache key. A breaker does not help if its threshold is above one, or if solving and
      checking together take as long as the cooldown. */
  lemma {:induction false} NestedFetchNeverEnds(cfg: Config, p: Breaker.Policy, query: string, offset: int, i: nat,
                                                w: World, n: nat, renames: bool, ok: int, dCheck: nat, dSolve: nat)
    requires cfg.antiBot.solving && cfg.antiBot.breaker == Some(p) && Succeeds(cfg, ok) && i < cfg.retryMax
    requires renames || cfg.antiBot.vqdInvalidate
    requires p.threshold > 1 || dSolve + dCheck >= p.cooldown
    requires w.script == Alternating(n, renames, |w.ua|, ok, dCheck, dSolve)
    requires Unknown(w, query) && Admits(cfg, w, dCheck)
    ensures var run := Loop(cfg, Djs(query, offset), i, w);
            run.outcome == Unfinished && Requests(run.w.trace) == Requests(w.trace) + 2 * n
    decreases n
  {
    hide Loop, Unknown, Admits, Forbidden, Welcome, Requests, Rested;
    if n == 0 {
      Endings.LoopOnNothing(cfg, Djs(query, offset), i, w);
    } else {
      var agent := if renames then Agents(|w.ua| + 1) else "";
      var w' := RoundTrip(cfg, p, query, offset, i, w, ok, dCheck, dSolve, agent);
      assert w.script[2..] == Alternating(n - 1, renames, |w'.ua|, ok, dCheck, dSolve);
      NestedFetchNeverEnds(cfg, p, query, offset, i, w', n - 1, renames, ok, dCheck, dSolve);
    }
  }
}
