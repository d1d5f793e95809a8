/** How many requests and how much sleep a call may cost, and whether it ends at all. */
module Budgets {
  import opened Basics
  import opened RetryLoop
  import Solver = ChallengeSolver

  /** How many requests a trace shows, warmup aside. */
  function Requests(tr: seq<Event>): nat {
    if tr == [] then 0 else Requests(tr[..|tr| - 1]) + if tr[|tr| - 1].Sent? then 1 else 0
  }

  /** How much a trace slept between attempts at one kind of request. */
  function Rested(tr: seq<Event>, kind: Request): nat {
    if tr == [] then 0
    else
      var e := tr[|tr| - 1];
      Rested(tr[..|tr| - 1], kind) + if e.Slept? && e.kind == kind then e.d else 0
  }

  lemma Append(tr: seq<Event>, e: Event)
    ensures Requests(tr + [e]) == Requests(tr) + if e.Sent? then 1 else 0
    ensures forall k :: Rested(tr + [e], k) == Rested(tr, k) + if e.Slept? && e.kind == k then e.d else 0
  {
    assert (tr + [e])[..|tr|] == tr;
  }

  /// What each phase costs

  /** Neither a request nor a pause. */
  ghost predicate Free(w: World, w': World) {
    Requests(w'.trace) == Requests(w.trace) && forall k :: Rested(w'.trace, k) == Rested(w.trace, k)
  }

  lemma FreeAppend(w: World, w': World)
    requires w'.trace == w.trace
             || exists e: Event {:trigger e.Sent?} :: !e.Sent? && !e.Slept? && w'.trace == w.trace + [e]
    ensures Free(w, w')
  {
    if w'.trace != w.trace {
      var e: Event :| !e.Sent? && !e.Slept? && w'.trace == w.trace + [e];
      Append(w.trace, e);
    }
  }

  lemma GateFree(cfg: Config, kind: Request, i: nat, w: World, r: Round)
    ensures Free(w, Gate(cfg, kind, i, w, r).0)
  {
    hide Gate, Requests, Rested;
    var e := Rejected(kind, i + 1, Gate(cfg, kind, i, w, r).0.now);
    assert !e.Sent?;
    FreeAppend(w, Gate(cfg, kind, i, w, r).0);
  }

  lemma PaceFree(cfg: Config, w: World, r: Round)
    ensures Free(w, Pace(cfg, w, r).0)
  {
    hide Pace, Requests, Rested;
    var e, e' := Slot(w.now + r.dTurn, r.z), Turn(Pace(cfg, w, r).0.now);
    assert !e.Sent? && !e'.Sent?;
    FreeAppend(w, Pace(cfg, w, r).0);
  }

  lemma OutcomeFree(cfg: Config, kind: Request, i: nat, w: World, r: Round)
    ensures Free(w, Reward(cfg, kind, i, w, r)) && Free(w, Punish(cfg, kind, i, w, r))
  {
    hide Reward, Punish, Requests, Rested;
    var e, e' := Clean(kind, i + 1, w.lastProxy, w.now + r.dRecord), BlockEvent(kind, i, w, r);
    assert !e.Sent? && !e'.Sent?;
    FreeAppend(w, Reward(cfg, kind, i, w, r));
    FreeAppend(w, Punish(cfg, kind, i, w, r));
  }

  lemma ChallengeFree(cfg: Config, w: World, r: Round)
    ensures Free(w, Challenge(cfg, w, r).0)
  {
    hide Challenge, Requests, Rested;
    if Challenge(cfg, w, r).1 {
      var e := Solved(Solver.Outcome(r.answers).solution.ua);
      assert !e.Sent?;
    }
    FreeAppend(w, Challenge(cfg, w, r).0);
  }

  lemma SendCosts(cfg: Config, kind: Request, token: string, w: World, r: Round)
    ensures var w' := Send(cfg, kind, token, w, r);
            Requests(w'.trace) == Requests(w.trace) + 1 && forall k :: Rested(w'.trace, k) == Rested(w.trace, k)
  {
    Append(w.trace, Sent(kind, token, Send(cfg, kind, token, w, r).lastProxy, w.now + r.dSend, r.reply));
    hide Send;
  }

  lemma RestCosts(cfg: Config, kind: Request, i: nat, w: World, r: Round)
    ensures var w' := Rest(cfg, kind, i, w, r).0;
            && Requests(w'.trace) == Requests(w.trace)
            && Rested(w'.trace, kind) == Rested(w.trace, kind) + Max(Pause(cfg, i, r), 0)
            && forall k :: k != kind ==> Rested(w'.trace, k) == Rested(w.trace, k)
  {
    hide Rest, Pause, Requests, Rested;
    if Pause(cfg, i, r) > 0 {
      Append(w.trace, Slept(kind, i, Pause(cfg, i, r)));
    }
  }

  /// The request budget without solvers

  /** A d.js attempt may pay for a whole token fetch of its own. */
  function PerAttempt(cfg: Config, kind: Request): nat {
    if kind.Djs? then cfg.retryMax + 1 else 1
  }

  /** What `n` attempts may cost. */
  function Cost(cfg: Config, kind: Request, n: nat): nat {
    if n == 0 then 0 else Cost(cfg, kind, n - 1) + PerAttempt(cfg, kind)
  }

  lemma {:induction false} CostIsProduct(cfg: Config, kind: Request, n: nat)
    ensures Cost(cfg, kind, n) == n * PerAttempt(cfg, kind)
  {
    if n > 0 {
      CostIsProduct(cfg, kind, n - 1);
    }
  }

  lemma {:induction false} LoopBudget(cfg: Config, kind: Request, i: nat, w: World)
    requires i < cfg.retryMax && !cfg.antiBot.solving
    ensures Requests(Loop(cfg, kind, i, w).w.trace)
            <= Requests(w.trace) + Cost(cfg, kind, cfg.retryMax - i)
    decreases |w.script|, 0
  {
    hide Gate, Pace, Attempt, Prepare, Requests, Rested;
    if w.script != [] {
      var r, w0 := w.script[0], w.(script := w.script[1..]);
      GateFree(cfg, kind, i, w0, r);
      var (w1, open) := Gate(cfg, kind, i, w0, r);
      if !open {
        PaceFree(cfg, w1, r);
        var (w2, cut) := Pace(cfg, w1, r);
        if !cut {
          PrepareBudget(cfg, kind, w2, r);
          var built := Prepare(cfg, kind, w2, r);
          if built.outcome.Done? {
            AttemptBudget(cfg, kind, i, built.outcome.value, built.w, r);
          }
        }
      }
    }
  }

  lemma {:induction false} PrepareBudget(cfg: Config, kind: Request, w: World, r: Round)
    requires !cfg.antiBot.solving
    ensures Requests(Prepare(cfg, kind, w, r).w.trace) <= Requests(w.trace) + PerAttempt(cfg, kind) - 1
    decreases |w.script|, 2
  {
    hide Loop, Requests, Rested;
    if kind.Djs? {
      var w1 := Tick(w, r.dLookup);
      var key := CacheKey(kind.query, w1.ua);
      if Cached(w1, key) {
        Append(w1.trace, CacheHit(key, w1.cache[key].value, w1.now));
      } else {
        LoopBudget(cfg, Vqd(kind.query), 0, w1);
        CostIsProduct(cfg, Vqd(kind.query), cfg.retryMax);
        var run := Loop(cfg, Vqd(kind.query), 0, w1);
        if run.outcome.Done? {
          Append(run.w.trace, Stored(key, run.outcome.value.vqd, w1.now));
        }
      }
    }
  }

  /** Without solvers, an attempt is one request, its bookkeeping, and the end of a counted iteration
      unless the reply was final. */
  lemma UnsolvedAttempt(cfg: Config, kind: Request, i: nat, token: string, w: World, r: Round)
    returns (w': World, fate: Fate)
    requires i < cfg.retryMax && !cfg.antiBot.solving
    ensures if fate.Finish? then Attempt(cfg, kind, i, token, w, r).w == w'
            else Attempt(cfg, kind, i, token, w, r) == Recur(cfg, kind, i, fate.error, w', r)
    ensures Requests(w'.trace) == Requests(w.trace) + 1
    ensures w'.script == w.script && w'.now >= w.now && w'.ua == w.ua && w.trace <= w'.trace
    ensures Undisturbed(cfg, w, w') ==> w'.cache == w.cache
  {
    hide Send, Judge, Reward, Punish, Challenge, Recur, Loop, Requests, Rested;
    SendCosts(cfg, kind, token, w, r);
    w', fate := w, Judge(cfg, i, Send(cfg, kind, token, w, r), r).1;
    var w1 := Judge(cfg, i, Send(cfg, kind, token, w, r), r).0;
    OutcomeFree(cfg, kind, i, w1, r);
    match fate
    case Finish(Done(_)) => w' := Reward(cfg, kind, i, w1, r);
    case Finish(_) => w' := w1;
    case Again(_) => w' := w1;
    case Handle(_) =>
      PunishKeepsCache(cfg, kind, i, w1, r);
      ChallengeFree(cfg, Punish(cfg, kind, i, w1, r), r);
      w' := Challenge(cfg, Punish(cfg, kind, i, w1, r), r).0;
      assert w'.trace[|w1.trace|].Block?;
  }

  lemma PunishKeepsCache(cfg: Config, kind: Request, i: nat, w: World, r: Round)
    ensures !cfg.antiBot.vqdInvalidate ==> Punish(cfg, kind, i, w, r).cache == w.cache
  {
  }

  /** No block threw tokens away between these two worlds: invalidation is off, or no block was
      handled. */
  predicate Undisturbed(cfg: Config, w: World, w': World) {
    cfg.antiBot.vqdInvalidate ==> forall k :: |w.trace| <= k < |w'.trace| ==> !w'.trace[k].Block?
  }

  /** What holds of a stretch holds of every part of it. */
  lemma PartUndisturbed(cfg: Config, w: World, w1: World, w2: World, w': World)
    requires Undisturbed(cfg, w, w') && w.trace <= w1.trace <= w2.trace <= w'.trace
    ensures Undisturbed(cfg, w1, w2)
  {
  }

  lemma {:induction false} AttemptBudget(cfg: Config, kind: Request, i: nat, token: string, w: World, r: Round)
    requires i < cfg.retryMax && !cfg.antiBot.solving
    ensures Requests(Attempt(cfg, kind, i, token, w, r).w.trace)
            <= Requests(w.trace) + 1 + Cost(cfg, kind, cfg.retryMax - i - 1)
    decreases |w.script|, 2
  {
    hide Attempt, Rest, Loop, Requests, Rested, Cost, Pause;
    var w2, fate := UnsolvedAttempt(cfg, kind, i, token, w, r);
    if i < cfg.retryMax - 1 && !fate.Finish? {
      RestCosts(cfg, kind, i, w2, r);
      var (w3, cut) := Rest(cfg, kind, i, w2, r);
      if !cut {
        LoopBudget(cfg, kind, i + 1, w3);
      }
    }
  }

  /** Without solvers, one search costs at most retryMax * (retryMax + 2) requests through its nested
      loops. */
  lemma SearchBudget(cfg: Config, query: string, max: int, offset: int, w: World)
    requires !cfg.antiBot.solving
    ensures Requests(Search(cfg, query, max, offset, w).w.trace)
            <= Requests(w.trace) + cfg.retryMax * (cfg.retryMax + 2)
  {
    hide Loop, Warmup, SearchDjs, SearchHtml, Requests, Rested;
    WarmupFree(cfg, w);
    var warm := Warmup(cfg, w);
    LoopBudget(cfg, Djs(query, offset), 0, warm.w);
    var djs := SearchDjs(cfg, query, offset, warm.w);
    LoopBudget(cfg, Html(query, offset), 0, djs.w);
    CostIsProduct(cfg, Djs(query, offset), cfg.retryMax);
    CostIsProduct(cfg, Html(query, offset), cfg.retryMax);
    assert cfg.retryMax * (cfg.retryMax + 2) == cfg.retryMax * (cfg.retryMax + 1) + cfg.retryMax;
  }

  lemma WarmupFree(cfg: Config, w: World)
    ensures Requests(Warmup(cfg, w).w.trace) == Requests(w.trace)
  {
    hide Requests;
    if cfg.antiBot.warmupTTL.Some? && w.script != [] {
      var r := w.script[0];
      var w1 := PickProxy(cfg, Tick(w.(script := w.script[1..]), r.dCheck + r.dSend), r.proxyDraw);
      var w2 := Tick(Note(w1, WarmupSent(w1.lastProxy, w1.now)), r.dReply);
      Append(w.trace, WarmupSent(w1.lastProxy, w1.now));
      Append(w2.trace, WarmupSent(PickProxy(cfg, w2, r.warmupDraw).lastProxy, w2.now));
    }
  }

  /// The request budget while the token lives

  /** The query's token is in the cache and good up to an instant. */
  predicate Holds(w: World, query: string, until: int) {
    var key := CacheKey(query, w.ua);
    key in w.cache && w.cache[key].value != "" && until < w.cache[key].expires
  }

  /** A loop for another kind of request leaves cache and user-agent as they are, without solvers and
      while no block throws tokens away. */
  lemma {:induction false} LoopKeepsCache(cfg: Config, kind: Request, i: nat, w: World)
    requires i < cfg.retryMax && !kind.Djs? && !cfg.antiBot.solving
    requires Undisturbed(cfg, w, Loop(cfg, kind, i, w).w)
    ensures var run := Loop(cfg, kind, i, w);
            run.w.cache == w.cache && run.w.ua == w.ua
    decreases |w.script|, 0
  {
    hide Gate, Pace, Attempt, Undisturbed, Requests, Rested;
    if w.script != [] {
      var r, w0 := w.script[0], w.(script := w.script[1..]);
      var (w1, open) := Gate(cfg, kind, i, w0, r);
      if !open {
        var (w2, cut) := Pace(cfg, w1, r);
        if !cut && !r.buildFails {
          PartUndisturbed(cfg, w, w2, Loop(cfg, kind, i, w).w, Loop(cfg, kind, i, w).w);
          AttemptKeepsCache(cfg, kind, i, w2, r);
        }
      }
    }
  }

  lemma {:induction false} AttemptKeepsCache(cfg: Config, kind: Request, i: nat, w: World, r: Round)
    requires i < cfg.retryMax && !kind.Djs? && !cfg.antiBot.solving
    requires Undisturbed(cfg, w, Attempt(cfg, kind, i, "", w, r).w)
    ensures var run := Attempt(cfg, kind, i, "", w, r);
            run.w.cache == w.cache && run.w.ua == w.ua
    decreases |w.script|, 1
  {
    hide Attempt, Rest, Loop, Undisturbed, Requests, Rested, Cost, Pause;
    var end := Attempt(cfg, kind, i, "", w, r).w;
    var w2, fate := UnsolvedAttempt(cfg, kind, i, "", w, r);
    PartUndisturbed(cfg, w, w, w2, end);
    if i < cfg.retryMax - 1 && !fate.Finish? {
      var (w3, cut) := Rest(cfg, kind, i, w2, r);
      if !cut {
        PartUndisturbed(cfg, w, w3, end, end);
        LoopKeepsCache(cfg, kind, i + 1, w3);
      }
    }
  }

  /** While the token is good, a d.js loop costs one request per attempt; otherwise it pays for one
      token fetch on top, when the whole call takes less than a token's life. */
  lemma {:induction false} DjsBudget(cfg: Config, kind: Request, i: nat, w: World, end: int)
    requires i < cfg.retryMax && !cfg.antiBot.solving && kind.Djs?
    requires Undisturbed(cfg, w, Loop(cfg, kind, i, w).w)
    requires Loop(cfg, kind, i, w).w.now <= end && (Holds(w, kind.query, end) || end < w.now + cfg.vqdTTL)
    ensures Requests(Loop(cfg, kind, i, w).w.trace)
            <= Requests(w.trace) + (cfg.retryMax - i) + if Holds(w, kind.query, end) then 0 else cfg.retryMax
    decreases |w.script|, 0
  {
    hide Gate, Pace, Prepare, Attempt, Undisturbed, Requests, Rested;
    if w.script != [] {
      var r, w0, run := w.script[0], w.(script := w.script[1..]), Loop(cfg, kind, i, w);
      GateFree(cfg, kind, i, w0, r);
      var (w1, open) := Gate(cfg, kind, i, w0, r);
      if !open {
        PaceFree(cfg, w1, r);
        var (w2, cut) := Pace(cfg, w1, r);
        if !cut {
          var built := Prepare(cfg, kind, w2, r);
          PartUndisturbed(cfg, w, w2, built.w, run.w);
          PrepareOnce(cfg, kind, w2, r, end);
          if built.outcome.Done? {
            PartUndisturbed(cfg, w, built.w, run.w, run.w);
            DjsAttempt(cfg, kind, i, built.outcome.value, built.w, r, end);
          }
        }
      }
    }
  }

  lemma {:induction false} DjsAttempt(cfg: Config, kind: Request, i: nat, token: string, w: World, r: Round, end: int)
    requires i < cfg.retryMax && !cfg.antiBot.solving && kind.Djs?
    requires Undisturbed(cfg, w, Attempt(cfg, kind, i, token, w, r).w)
    requires Attempt(cfg, kind, i, token, w, r).w.now <= end
    requires Holds(w, kind.query, end) || end < w.now + cfg.vqdTTL
    ensures Requests(Attempt(cfg, kind, i, token, w, r).w.trace)
            <= Requests(w.trace) + (cfg.retryMax - i) + if Holds(w, kind.query, end) then 0 else cfg.retryMax
    decreases |w.script|, 1
  {
    hide Attempt, Rest, Loop, Undisturbed, Requests, Rested, Cost, Pause;
    var last := Attempt(cfg, kind, i, token, w, r).w;
    var w2, fate := UnsolvedAttempt(cfg, kind, i, token, w, r);
    PartUndisturbed(cfg, w, w, w2, last);
    if i < cfg.retryMax - 1 && !fate.Finish? {
      RestCosts(cfg, kind, i, w2, r);
      var (w3, cut) := Rest(cfg, kind, i, w2, r);
      if !cut {
        PartUndisturbed(cfg, w, w3, last, last);
        DjsBudget(cfg, kind, i + 1, w3, end);
      }
    }
  }

  /** Building a request uses the token that is there, or fetches one that outlives the call. */
  lemma PrepareOnce(cfg: Config, kind: Request, w: World, r: Round, end: int)
    requires !cfg.antiBot.solving && kind.Djs? && Undisturbed(cfg, w, Prepare(cfg, kind, w, r).w)
    requires Prepare(cfg, kind, w, r).w.now <= end && (Holds(w, kind.query, end) || end < w.now + cfg.vqdTTL)
    ensures var run := Prepare(cfg, kind, w, r);
            && Requests(run.w.trace) <= Requests(w.trace) + (if Holds(w, kind.query, end) then 0 else cfg.retryMax)
            && (Holds(w, kind.query, end) ==> Holds(run.w, kind.query, end))
            && (run.outcome.Done? && Requests(run.w.trace) > Requests(w.trace) ==> Holds(run.w, kind.query, end))
  {
    hide Loop, Undisturbed, Requests, Rested;
    var w1 := Tick(w, r.dLookup);
    var key := CacheKey(kind.query, w1.ua);
    if Cached(w1, key) {
      Append(w1.trace, CacheHit(key, w1.cache[key].value, w1.now));
    } else {
      var run := Loop(cfg, Vqd(kind.query), 0, w1);
      PartUndisturbed(cfg, w, w1, run.w, Prepare(cfg, kind, w, r).w);
      LoopBudget(cfg, Vqd(kind.query), 0, w1);
      CostIsProduct(cfg, Vqd(kind.query), cfg.retryMax);
      LoopKeepsCache(cfg, Vqd(kind.query), 0, w1);
      if run.outcome.Done? {
        Append(run.w.trace, Stored(key, run.outcome.value.vqd, w1.now));
      }
    }
  }

  /** Without solvers, a search costs at most 3 * retryMax requests, one loop for each kind, when its d.js
      loop is done within a token's life and no block throws tokens away until then. */
  lemma WarmSearchBudget(cfg: Config, query: string, max: int, offset: int, w: World)
    requires !cfg.antiBot.solving
    requires var w1 := SearchDjs(cfg, query, offset, Warmup(cfg, w).w).w;
             Undisturbed(cfg, w, w1) && w1.now < w.now + cfg.vqdTTL
    ensures Requests(Search(cfg, query, max, offset, w).w.trace) <= Requests(w.trace) + 3 * cfg.retryMax
  {
    hide Loop, Warmup, SearchDjs, SearchHtml, Undisturbed, Requests, Rested;
    WarmupFree(cfg, w);
    var warm := Warmup(cfg, w);
    var djs := SearchDjs(cfg, query, offset, warm.w);
    PartUndisturbed(cfg, w, warm.w, djs.w, djs.w);
    DjsBudget(cfg, Djs(query, offset), 0, warm.w, djs.w.now);
    LoopBudget(cfg, Html(query, offset), 0, djs.w);
    CostIsProduct(cfg, Html(query, offset), cfg.retryMax);
  }
}
