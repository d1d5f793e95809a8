/** The search client itself: an object that changes in place, with the circuit breaker, the rate
    limiter and the proxy pool as objects of their own. Every method is proved to do to the client
    exactly what the reference machine of `RetryLoop` does to a world, so everything proved of the
    machine holds of the client. One caller at a time. */
module SearchClient {
  import opened Basics
  import opened RetryLoop
  import opened RetrySafety
  import opened WeightedChoice
  import Breaker
  import Errors
  import Paging
  import Proxies
  import RateLimiter
  import Solver = ChallengeSolver

  class Client {
    const cfg: Config
    const breaker: Breaker.CircuitBreaker?
    const limiter: RateLimiter.AdaptiveRateLimiter?
    const pool: Proxies.ProxyPool?
    var lastReq: nat
    var vqdCache: map<string, Token>
    var ua: string
    /** The proxy that the transport used last. */
    var lastProxy: Proxies.ProxyEntry?
    /** The session. */
    var warmed: bool
    var lastWarmup: nat
    /** The environment: the clock, and everything that is still to come. */
    var now: Instant
    var script: seq<Round>
    /** The calls made on the two callbacks. */
    var onBlocked: seq<BlockedCall>
    var onCircuit: seq<CircuitCall>
    ghost var trace: seq<Event>

    ghost function Footprint(): (f: set<object>)
      ensures this in f
      ensures limiter != null ==> limiter in f
      ensures pool != null ==> pool in f
    {
      {this} + (if breaker == null then {} else {breaker}) + (if limiter == null then {} else {limiter})
      + if pool == null then {} else {pool} + set e: object | e in pool.entries
    }

    ghost predicate Valid(): (v: bool)
      reads Footprint()
      ensures v ==> (cfg.antiBot.breaker.Some? <==> breaker != null)
      ensures v ==> (cfg.antiBot.limiter.Some? <==> limiter != null)
      ensures v ==> (cfg.antiBot.proxied <==> pool != null)
    {
      var ab := cfg.antiBot;
      && (ab.breaker.Some? <==> breaker != null)
      && (breaker != null ==> breaker.Valid() && breaker.policy == ab.breaker.value)
      && (ab.limiter.Some? <==> limiter != null)
      && (limiter != null ==> limiter.Valid() && limiter.range == ab.limiter.value)
      && (ab.proxied <==> pool != null)
      && (pool != null ==> pool.Valid() && pool.CurrentPlan() == cfg.proxies && cfg.proxies.Drawable())
      && (lastProxy != null ==> pool != null && lastProxy in pool.entries)
    }

    /** The client as a value. */
    ghost function View(): (w: World)
      reads Footprint()
      ensures w.now == now && w.script == script && w.lastTurn == lastReq && w.cache == vqdCache && w.ua == ua
      ensures w.warmed == warmed && w.lastWarmup == lastWarmup && w.lastProxy == LastSlot()
    {
      World(now, script,
            if breaker == null then Breaker.FRESH else breaker.Fields(),
            if limiter == null then NO_LIMITER else limiter.Fields(),
            lastReq, vqdCache, ua,
            if pool == null then [] else pool.Healths(),
            if pool == null then 0 else pool.rrIndex,
            LastSlot(), warmed, lastWarmup, onBlocked, onCircuit, trace)
    }

    ghost function LastSlot(): Option<nat>
      reads this
    {
      if lastProxy == null then None else Some(lastProxy.slot)
    }

    constructor (cfg: Config, settings: Settings, pool: Proxies.ProxyPool?, now: Instant, script: seq<Round>)
      requires settings.proxied <==> pool != null
      requires pool != null ==> pool.Valid() && pool.CurrentPlan() == cfg.proxies && cfg.proxies.Drawable()
      requires if pool == null then cfg.health == [] && cfg.rrIndex == 0
               else cfg.health == pool.Healths() && cfg.rrIndex == pool.rrIndex
      ensures Valid() && this.cfg == cfg.(antiBot := Build(settings)) && this.pool == pool
      ensures View() == Initial(this.cfg, now, script)
      ensures Safe(this.cfg, View())
    {
      hide Safe, Proxies.ProxyPool.Valid, Proxies.ProxyPool.CurrentPlan, Proxies.ProxyPool.Healths;
      hide Breaker.Replay, Breaker.OpenByHistory, Breaker.TrailingBlocks, RateLimiter.Replay;
      this.cfg := cfg.(antiBot := Build(settings));
      if settings.threshold != 0 {
        breaker := new Breaker.CircuitBreaker(settings.threshold, settings.cooldown);
      } else {
        breaker := null;
      }
      if settings.adaptive {
        limiter := new RateLimiter.AdaptiveRateLimiter(OrDefault(settings.adaptiveBase, 300 * MILLISECOND),
                                                       OrDefault(settings.adaptiveMax, 30 * SECOND));
      } else {
        limiter := null;
      }
      this.pool, this.ua, this.now, this.script := pool, cfg.ua, now, script;
      lastReq, vqdCache, lastProxy, warmed, lastWarmup := ZERO_TIME, map[], null, false, ZERO_TIME;
      onBlocked, onCircuit, trace := [], [], [];
      new;
      InitialSafe(this.cfg, now, script);
    }

    /// One field, or one object, at a time

    method Advance(d: nat)
      requires Valid()
      modifies this`now
      ensures Valid() && View() == Tick(old(View()), d)
    {
      now := now + d;
    }

    method NextRound() returns (r: Round)
      requires Valid() && script != []
      modifies this`script
      ensures Valid() && r == old(script)[0] && View() == old(View()).(script := old(script)[1..])
    {
      r, script := script[0], script[1..];
    }

    ghost method Record(e: Event)
      requires Valid()
      modifies this`trace
      ensures Valid() && View() == Note(old(View()), e)
    {
      trace := trace + [e];
    }

    method TurnTaken()
      requires Valid()
      modifies this`lastReq, this`trace
      ensures Valid() && View() == Note(old(View()).(lastTurn := now), Turn(now))
    {
      lastReq := now;
      Record(Turn(now));
    }

    method OnBlocked(call: BlockedCall)
      requires Valid()
      modifies this`onBlocked
      ensures Valid() && View() == old(View()).(onBlocked := old(View()).onBlocked + [call])
    {
      onBlocked := onBlocked + [call];
    }

    method OnCircuit(trigger: Trigger, attempt: nat, snap: Breaker.Snapshot)
      requires Valid()
      modifies this`onCircuit
      ensures Valid()
      ensures View() == old(View()).(onCircuit := old(View()).onCircuit + [CircuitCall(trigger, attempt, snap)])
    {
      onCircuit := onCircuit + [CircuitCall(trigger, attempt, snap)];
    }

    method ClearAllVqd()
      requires Valid()
      modifies this`vqdCache
      ensures Valid() && View() == old(View()).(cache := map[])
    {
      vqdCache := map[];
    }

    method CacheVqd(key: string, token: Token)
      requires Valid()
      modifies this`vqdCache
      ensures Valid() && View() == old(View()).(cache := old(vqdCache)[key := token])
    {
      vqdCache := vqdCache[key := token];
    }

    method InvalidateSession()
      requires Valid()
      modifies this`warmed
      ensures Valid() && View() == old(View()).(warmed := false)
    {
      warmed := false;
    }

    method SessionWarmed()
      requires Valid()
      modifies this`warmed, this`lastWarmup
      ensures Valid() && View() == old(View()).(warmed := true, lastWarmup := now)
    {
      warmed, lastWarmup := true, now;
    }

    /** A solution may bring the user-agent that it is bound to. */
    method ApplySolution(solution: Solver.Solution)
      requires Valid()
      modifies this`ua
      ensures Valid() && View() == if solution.ua != "" then old(View()).(ua := solution.ua) else old(View())
    {
      if solution.ua != "" {
        ua := solution.ua;
      }
    }

    /** The transport picks a proxy and remembers it. */
    method PickProxy(draw: nat)
      requires Valid()
      modifies this`lastProxy, pool
      ensures Valid() && View() == RetryLoop.PickProxy(cfg, old(View()), draw)
    {
      hide Breaker.CircuitBreaker.Valid, RateLimiter.AdaptiveRateLimiter.Valid, Proxies.ProxyPool.Valid;
      hide Proxies.ProxyPool.Healths, Proxies.PickFrom, Proxies.Available, Proxies.WeightsAt, Sum;
      if pool != null {
        var turn := pool.Next(now, draw);
        NoPanic();
        lastProxy := if turn.Proxy? then turn.entry else null;
      }
    }

    /** With weights that are not negative no draw panics. */
    lemma NoPanic()
      requires Valid() && pool != null
      ensures cfg.proxies.strategy.Weighted? ==>
                forall slots: seq<nat> :: Sum(Proxies.WeightsAt(cfg.proxies.weights, slots)) >= 0
    {
      forall slots: seq<nat> | cfg.proxies.strategy.Weighted?
        ensures Sum(Proxies.WeightsAt(cfg.proxies.weights, slots)) >= 0
      {
        Proxies.TotalNonNegative(Proxies.WeightsAt(cfg.proxies.weights, slots));
      }
    }

    method ReserveSlot(r: Round) returns (wait: nat)
      requires Valid() && limiter != null
      modifies limiter, this`trace
      ensures Valid()
      ensures var w, range := old(View()), cfg.antiBot.limiter.value;
              && wait == RateLimiter.Delay(range, w.limiter, now, r.z)
              && View() == Note(w.(limiter := RateLimiter.Step(range, w.limiter, RateLimiter.Wait(now, r.z))),
                                Slot(now, r.z))
    {
      wait := limiter.Wait(now, r.z);
      trace := trace + [Slot(now, r.z)];
    }

    method TellLimiter(op: RateLimiter.Op)
      requires Valid() && !op.Wait?
      modifies Footprint()
      ensures Valid() && View() == RetryLoop.TellLimiter(cfg.antiBot, op, old(View()))
    {
      hide Breaker.CircuitBreaker.Valid, RateLimiter.AdaptiveRateLimiter.Valid, Proxies.ProxyPool.Valid;
      hide Proxies.ProxyPool.Healths, Proxies.ProxyPool.CurrentPlan, RateLimiter.Replay, RateLimiter.Grown;
      if limiter != null {
        if op.OnBlock? {
          limiter.OnBlock();
        } else {
          limiter.OnSuccess();
        }
      }
    }

    method TellBreaker(op: Breaker.Op, attempt: nat)
      requires Valid()
      modifies Footprint()
      ensures Valid() && View() == RetryLoop.TellBreaker(cfg.antiBot, op, attempt, old(View()))
    {
      hide Breaker.CircuitBreaker.Valid, RateLimiter.AdaptiveRateLimiter.Valid, Proxies.ProxyPool.Valid;
      hide Proxies.ProxyPool.Healths, Proxies.ProxyPool.CurrentPlan, Breaker.Replay, Breaker.OpenByHistory;
      hide Breaker.TrailingBlocks;
      if breaker == null {
        return;
      }
      match op {
        case Block(checked, stamped) =>
          var tripped, snap := breaker.RecordBlock(checked, stamped);
          if tripped {
            onCircuit := onCircuit + [CircuitCall(ThresholdReached, attempt, snap)];
          }
        case Success(at) =>
          var cleared, snap := breaker.RecordSuccess(at);
          if cleared {
            onCircuit := onCircuit + [CircuitCall(SuccessReset, attempt, snap)];
          }
      }
    }

    method TellProxy(failed: Option<Instant>)
      requires Valid()
      modifies Footprint()
      ensures Valid() && View() == RetryLoop.TellProxy(cfg.antiBot, failed, old(View()))
    {
      if pool == null {
        return;
      }
      if failed.Some? {
        pool.MarkFailed(lastProxy, failed.value);
      } else {
        pool.MarkSuccess(lastProxy);
      }
    }

    /** All three hear of the outcome of an exchange. */
    method Tell(pace: RateLimiter.Op, op: Breaker.Op, failed: Option<Instant>, attempt: nat)
      requires Valid() && !pace.Wait?
      modifies Footprint()
      ensures Valid() && View() == RetryLoop.Tell(cfg.antiBot, pace, op, failed, attempt, old(View()))
    {
      hide View, Valid, Footprint, RetryLoop.TellLimiter, RetryLoop.TellBreaker, RetryLoop.TellProxy;
      TellLimiter(pace);
      TellBreaker(op, attempt);
      TellProxy(failed);
    }

    /** The token cache and the session may be thrown away on a block. */
    method Forget()
      requires Valid()
      modifies this`vqdCache, this`warmed
      ensures Valid() && View() == RetryLoop.Forget(cfg.antiBot, old(View()))
    {
      hide View, Valid;
      if cfg.antiBot.vqdInvalidate {
        ClearAllVqd();
      }
      if cfg.antiBot.sessionInvalidate && cfg.antiBot.warmupTTL.Some? {
        InvalidateSession();
      }
    }

    /// The phases of an attempt

    /** A sleep that the context may cut short. */
    method Sleep(d: nat, stop: bool, dWake: nat) returns (cut: bool)
      requires Valid()
      modifies this`now
      ensures Valid() && (View(), cut) == RetryLoop.Sleep(old(View()), d, stop, dWake)
    {
      hide View, Valid;
      Advance(if stop then dWake else d + dWake);
      cut := stop;
    }

    method CheckBreaker(kind: Request, i: nat, r: Round) returns (open: bool)
      requires Valid()
      modifies this`now, this`onCircuit, this`trace
      ensures Valid() && (View(), open) == Gate(cfg, kind, i, old(View()), r)
    {
      hide Breaker.CircuitBreaker.Valid, RateLimiter.AdaptiveRateLimiter.Valid, Proxies.ProxyPool.Valid;
      hide Proxies.ProxyPool.Healths, Proxies.ProxyPool.CurrentPlan, Breaker.Replay, Breaker.OpenByHistory;
      hide Breaker.TrailingBlocks;
      Advance(r.dCheck);
      open := false;
      if breaker != null {
        open := breaker.IsOpen(now);
        if open {
          var snap := breaker.Read();
          OnCircuit(FailFast, i + 1, snap);
          Record(Rejected(kind, i + 1, now));
        }
      }
    }

    /** The adaptive limiter takes priority over the fixed gap. */
    method Pace(r: Round) returns (cut: bool)
      requires Valid()
      modifies this`now, this`lastReq, this`trace, limiter
      ensures Valid() && (View(), cut) == RetryLoop.Pace(cfg, old(View()), r)
    {
      hide View, Valid, RateLimiter.Delay, RateLimiter.Step;
      Advance(r.dTurn);
      if limiter != null {
        var wait := ReserveSlot(r);
        cut := false;
        if wait > 0 {
          cut := Sleep(wait, r.waitCut, r.dWake);
        }
      } else {
        cut := WaitForTurn(r);
      }
    }

    method WaitForTurn(r: Round) returns (cut: bool)
      requires Valid()
      modifies this`now, this`lastReq, this`trace
      ensures Valid()
      ensures if cfg.minGap <= 0 then View() == old(View()) && !cut
              else (View(), cut) == TakeTurn(cfg.minGap, old(View()), r)
    {
      hide View, Valid;
      if cfg.minGap <= 0 {
        return false;
      }
      if lastReq == ZERO_TIME {
        TurnTaken();
        return false;
      }
      var wait := lastReq + cfg.minGap - now;
      if wait > 0 {
        cut := Sleep(wait, r.waitCut, r.dWake);
        if cut {
          return true;
        }
      } else {
        Advance(r.dWake);
      }
      TurnTaken();
      return false;
    }

    method Do(kind: Request, token: string, r: Round) returns (reply: Reply)
      requires Valid()
      modifies this`now, this`lastProxy, this`trace, pool
      ensures Valid() && View() == Send(cfg, kind, token, old(View()), r) && reply == r.reply
    {
      hide View, Valid;
      Advance(r.dSend);
      PickProxy(r.proxyDraw);
      Record(Sent(kind, token, LastSlot(), now, r.reply));
      Advance(r.dReply);
      reply := r.reply;
    }

    /** Rate limiter, breaker and proxy pool hear of a clean response. */
    method RecordClean(kind: Request, i: nat, r: Round)
      requires Valid()
      modifies Footprint()
      ensures Valid() && View() == Reward(cfg, kind, i, old(View()), r)
    {
      hide View, Valid, Footprint, RetryLoop.Tell;
      Advance(r.dRecord);
      ghost var e := Clean(kind, i + 1, LastSlot(), now);
      Tell(RateLimiter.OnSuccess, Breaker.Success(now), None, i + 1);
      Record(e);
    }

    /** The block handler: callback, rate limiter, breaker, proxy pool, token cache, session. */
    method RecordBlocked(kind: Request, i: nat, r: Round)
      requires Valid()
      modifies Footprint()
      ensures Valid() && View() == Punish(cfg, kind, i, old(View()), r)
    {
      hide View, Valid, Footprint, Punish, RetryLoop.Forget, RetryLoop.Tell;
      ghost var w, e := View(), BlockEvent(kind, i, View(), r);
      CallbackFirst(cfg, kind, i, w, r);
      OnBlocked(BlockedCall(kind, i + 1));
      var checked := now + r.dRecord;
      var stamped := checked + r.dStamp;
      Advance(r.dRecord + r.dStamp + r.dFail);
      assert View() == w.(onBlocked := w.onBlocked + [BlockedCall(kind, i + 1)], now := e.failed);
      Tell(RateLimiter.OnBlock, Breaker.Block(checked, stamped), Some(now), i + 1);
      Forget();
      Record(e);
    }

    method AskSolvers(r: Round) returns (verdict: Solver.Verdict)
      requires Valid()
      ensures Valid() && View() == old(View()) && verdict == Solver.Outcome(r.answers)
    {
      verdict := Solver.Solve(r.answers);
    }

    /** The challenge solvers; true means that the attempt is not counted. */
    method SolveChallenge(r: Round) returns (solved: bool)
      requires Valid()
      modifies this`now, this`ua, this`trace
      ensures Valid() && (View(), solved) == Challenge(cfg, old(View()), r)
    {
      hide View, Valid;
      if !cfg.antiBot.solving {
        return false;
      }
      Advance(r.dSolve);
      var verdict := AskSolvers(r);
      if !verdict.Solved? {
        return false;
      }
      ApplySolution(verdict.solution);
      Record(Solved(verdict.solution.ua));
      return true;
    }

    method HandleBlock(kind: Request, i: nat, r: Round) returns (solved: bool)
      requires Valid()
      modifies Footprint()
      ensures Valid() && (View(), solved) == Challenge(cfg, Punish(cfg, kind, i, old(View()), r), r)
    {
      hide View, Valid, Footprint, Punish, Challenge;
      RecordBlocked(kind, i, r);
      solved := SolveChallenge(r);
    }

    method SleepBackoff(kind: Request, i: nat, r: Round) returns (cut: bool)
      requires Valid()
      modifies this`now, this`trace
      ensures Valid() && (View(), cut) == Rest(cfg, kind, i, old(View()), r)
    {
      hide View, Valid, Pause;
      var d := Pause(cfg, i, r);
      if d <= 0 {
        return false;
      }
      Record(Slept(kind, i, d));
      cut := Sleep(d, r.sleepCut, r.dSleep);
    }

    /// The retry loop and the token fetch nested in it

    /** The part of an iteration before anything is sent: breaker check, rate limit, request. */
    method Admit(kind: Request, i: nat, r: Round) returns (token: Outcome<string>)
      requires Valid() && i < cfg.retryMax
      modifies Footprint()
      ensures Valid() && Run(token, View()) == Admission(cfg, kind, i, old(View()), r)
      decreases |script|, 3
    {
      hide View, Valid, Footprint, Gate, RetryLoop.Pace, Prepare;
      var open := CheckBreaker(kind, i, r);
      if open {
        return Failed(Errors.CircuitOpen);
      }
      var cut := Pace(r);
      if cut {
        return Failed(Errors.Cancelled);
      }
      token := BuildRequest(kind, r);
    }

    /** Sends the request and classifies the reply, with the pause that a blocked reply may ask for. */
    method Exchange(kind: Request, i: nat, token: string, r: Round) returns (fate: Fate)
      requires Valid()
      modifies this`now, this`lastProxy, this`trace, pool
      ensures Valid() && (View(), fate) == Judge(cfg, i, Send(cfg, kind, token, old(View()), r), r)
    {
      hide View, Valid, Send;
      var reply := Do(kind, token, r);
      match reply {
        case Lost(text) =>
          return Again(Errors.Other(text));
        case Response(status, retryAfter, body) =>
          if status in cfg.blocked {
            if retryAfter > 0 && i < cfg.retryMax - 1 {
              var cut := Sleep(retryAfter * SECOND, r.retryCut, r.dRetryAfter);
              if cut {
                return Finish(Failed(Errors.Cancelled));
              }
            }
            return Handle(Errors.Blocked(status, "status", i + 1));
          }
          if 200 <= status < 300 {
            return if body.flagged then Handle(Errors.Blocked(status, "body", i + 1)) else Finish(Done(body));
          }
          if status == 429 || status >= 500 {
            return Again(Errors.HttpStatus(status));
          }
          return Finish(Failed(Errors.HttpStatus(status)));
      }
    }

    /** Sends requests of one kind until one is clean, fails for good, or the attempts run out. A
        solved challenge does not count as an attempt. */
    method DoWithRetry(kind: Request) returns (outcome: Outcome<Body>)
      requires Valid()
      modifies Footprint()
      ensures Valid() && Run(outcome, View()) == Loop(cfg, kind, 0, old(View()))
      decreases |script|, 0
    {
      hide View, Valid, Footprint, Loop, Admission, Attempt, Recur, Send, Judge, Reward, Punish;
      hide Challenge, Rest, Pause, Continues;
      ghost var run := Loop(cfg, kind, 0, View());
      var lastErr := None;
      var i := 0;
      while i < cfg.retryMax
        invariant Valid() && i < cfg.retryMax
        invariant Loop(cfg, kind, i, View()) == run
        decreases |script|
      {
        LoopAdmits(cfg, kind, i, View());
        if script == [] {
          return Unfinished;
        }
        var r := NextRound();
        var token := Admit(kind, i, r);
        match token {
          case Unfinished => return Unfinished;
          case Failed(e) => return Failed(e);
          case Done(_) =>
        }
        AttemptLeads(cfg, kind, i, token.value, View(), r);
        var fate := Exchange(kind, i, token.value, r);
        match fate {
          case Finish(Done(body)) =>
            RecordClean(kind, i, r);
            return Done(body);
          case Finish(failed) =>
            return failed;
          case _ =>
            lastErr := Some(fate.error);
        }
        if lastErr.value.Blocked? {
          var solved := HandleBlock(kind, i, r);
          if solved {
            continue;
          }
        }
        RecurLeads(cfg, kind, i, fate.error, View(), r);
        if i == cfg.retryMax - 1 {
          break;
        }
        var cut := SleepBackoff(kind, i, r);
        if cut {
          return Failed(Errors.Cancelled);
        }
        i := i + 1;
      }
      return Failed(lastErr.value);
    }

    method BuildRequest(kind: Request, r: Round) returns (token: Outcome<string>)
      requires Valid()
      modifies Footprint()
      ensures Valid() && Run(token, View()) == Prepare(cfg, kind, old(View()), r)
      decreases |script|, 2
    {
      hide View, Valid, Footprint, Fetch;
      token := Done("");
      if kind.Djs? {
        token := GetVqd(kind.query, r);
      }
      if token.Done? && r.buildFails {
        token := Failed(Errors.Other("bad request"));
      }
    }

    /** The token of a query, from the cache or by a retry loop of its own. */
    method GetVqd(query: string, r: Round) returns (token: Outcome<string>)
      requires Valid()
      modifies Footprint()
      ensures Valid() && Run(token, View()) == Fetch(cfg, query, old(View()), r)
      decreases |script|, 1
    {
      hide View, Valid, Footprint, Loop;
      Advance(r.dLookup);
      var key, start := CacheKey(query, ua), now;
      if key in vqdCache && vqdCache[key].value != "" && start < vqdCache[key].expires {
        Record(CacheHit(key, vqdCache[key].value, start));
        return Done(vqdCache[key].value);
      }
      var outcome := DoWithRetry(Vqd(query));
      if !outcome.Done? {
        return if outcome.Failed? then Failed(outcome.error) else Unfinished;
      }
      var vqd := outcome.value.vqd;
      if vqd == "" {
        return Failed(Errors.NoVqd);
      }
      CacheVqd(key, Token(vqd, start + cfg.vqdTTL));
      Record(Stored(key, vqd, start));
      return Done(vqd);
    }

    /// A search

    method SearchDjs(query: string, offset: int) returns (outcome: Outcome<seq<Item>>)
      requires Valid()
      modifies Footprint()
      ensures Valid() && Run(outcome, View()) == RetryLoop.SearchDjs(cfg, query, offset, old(View()))
    {
      hide View, Valid, Footprint, Loop;
      var body := DoWithRetry(Djs(query, offset));
      match body {
        case Unfinished => return Unfinished;
        case Failed(e) => return Failed(e);
        case Done(b) =>
          if b.djs.Garbled? {
            return Failed(b.djs.error);
          }
          return if |b.djs.items| == 0 then Failed(Errors.NoResults) else Done(b.djs.items);
      }
    }

    method SearchHtml(query: string, offset: int) returns (outcome: Outcome<seq<Item>>)
      requires Valid()
      modifies Footprint()
      ensures Valid() && Run(outcome, View()) == RetryLoop.SearchHtml(cfg, query, offset, old(View()))
    {
      hide View, Valid, Footprint, Loop;
      var body := DoWithRetry(Html(query, offset));
      match body {
        case Unfinished => return Unfinished;
        case Failed(e) => return Failed(e);
        case Done(b) =>
          return if |b.html| == 0 then Failed(Errors.NoResults) else Done(b.html);
      }
    }

    /** The first homepage request must be answered; the reply to the second is ignored. */
    method Warmup() returns (outcome: Outcome<()>)
      requires Valid()
      modifies this`now, this`script, this`lastProxy, this`warmed, this`lastWarmup, this`trace, pool
      ensures Valid() && Run(outcome, View()) == RetryLoop.Warmup(cfg, old(View()))
    {
      hide View, Valid, RetryLoop.PickProxy;
      if cfg.antiBot.warmupTTL.None? {
        return Done(());
      }
      if script == [] {
        return Unfinished;
      }
      var r := NextRound();
      Advance(r.dCheck);
      if warmed && now - lastWarmup <= cfg.antiBot.warmupTTL.value {
        return Done(());
      }
      Advance(r.dSend);
      PickProxy(r.proxyDraw);
      Record(WarmupSent(LastSlot(), now));
      Advance(r.dReply);
      if r.reply.Lost? {
        return Done(());
      }
      PickProxy(r.warmupDraw);
      Record(WarmupSent(LastSlot(), now));
      Advance(r.dRecord);
      SessionWarmed();
      return Done(());
    }

    /** One search: the d.js endpoint, then the HTML endpoint unless that is switched off. It keeps
        the client safe. */
    method Search(query: string, max: int, offset: int) returns (outcome: Outcome<seq<Item>>)
      requires Valid()
      modifies Footprint()
      ensures Valid() && Run(outcome, View()) == RetryLoop.Search(cfg, query, max, offset, old(View()))
      ensures Safe(cfg, old(View())) ==> Safe(cfg, View())
    {
      hide View, Valid, Footprint, Safe, Loop, RetryLoop.Warmup, RetryLoop.SearchDjs, RetryLoop.SearchHtml;
      Safely(cfg, query, max, offset, View());
      if query == "" {
        return Failed(Errors.Other("query is required"));
      }
      var warm := Warmup();
      if warm.Unfinished? {
        return Unfinished;
      }
      var results := SearchDjs(query, offset);
      match results {
        case Unfinished => return Unfinished;
        case Done(items) => return Done(Take(items, Limit(max)));
        case Failed(e) =>
          if cfg.noFallback {
            return Failed(e);
          }
      }
      var fallback := SearchHtml(query, offset);
      match fallback {
        case Unfinished => return Unfinished;
        case Failed(e) => return Failed(Errors.Wrapped(e));
        case Done(items) => return Done(Take(items, Limit(max)));
      }
    }

    method SearchPages(query: string, perPage: int, pages: int, offset: int)
      returns (all: seq<Item>, outcome: Outcome<()>)
      requires Valid()
      modifies Footprint()
      ensures Valid()
      ensures Paging.Batch(all, outcome, View()) == Paging.Pages(cfg, query, perPage, pages, offset, old(View()))
      ensures Safe(cfg, old(View())) ==> Safe(cfg, View())
    {
      hide View, Valid, Footprint, Safe, RetryLoop.Search;
      var n, m := if perPage <= 0 then 30 else perPage, if pages <= 0 then 1 else pages;
      all := [];
      for i := 0 to m
        invariant Valid() && (Safe(cfg, old(View())) ==> Safe(cfg, View()))
        invariant Paging.PagesFrom(cfg, query, n, i, m, offset, all, View())
                  == Paging.Pages(cfg, query, perPage, pages, offset, old(View()))
      {
        var page := Search(query, n, offset + i * 30);
        match page {
          case Unfinished =>
            return all, Unfinished;
          case Failed(e) =>
            return all, if Errors.Is(e, Errors.NoResults) then Done(()) else Failed(e);
          case Done(items) =>
            all := all + items;
            if |items| < n {
              return all, Done(());
            }
        }
      }
      outcome := Done(());
    }
  }

  lemma Safely(cfg: Config, query: string, max: int, offset: int, w: World)
    ensures Safe(cfg, w) ==> Safe(cfg, Search(cfg, query, max, offset, w).w)
  {
    hide Safe, Search;
    if Safe(cfg, w) {
      SearchSafe(cfg, query, max, offset, w);
    }
  }

  /** What an iteration does before anything is sent. */
  function Admission(cfg: Config, kind: Request, i: nat, w: World, r: Round): (run: Run<string>)
    ensures |run.w.script| <= |w.script|
  {
    var (w1, open) := Gate(cfg, kind, i, w, r);
    if open then Run(Failed(Errors.CircuitOpen), w1)
    else
      var (w2, cut) := Pace(cfg, w1, r);
      if cut then Run(Failed(Errors.Cancelled), w2) else Prepare(cfg, kind, w2, r)
  }

  /** Every iteration is an admission, and what follows from it. */
  lemma LoopAdmits(cfg: Config, kind: Request, i: nat, w: World)
    requires i < cfg.retryMax
    ensures w.script == [] ==> Loop(cfg, kind, i, w) == Run(Unfinished, w)
    ensures w.script != [] ==>
              var r := w.script[0];
              var a := Admission(cfg, kind, i, w.(script := w.script[1..]), r);
              && (a.outcome.Done? ==> Loop(cfg, kind, i, w) == Attempt(cfg, kind, i, a.outcome.value, a.w, r))
              && (a.outcome.Failed? ==> Loop(cfg, kind, i, w) == Run(Failed(a.outcome.error), a.w))
              && (a.outcome.Unfinished? ==> Loop(cfg, kind, i, w) == Run(Unfinished, a.w))
  {
    hide Gate, Pace, Prepare, Attempt;
  }

  /** Where an exchange leads. */
  lemma AttemptLeads(cfg: Config, kind: Request, i: nat, token: string, w: World, r: Round)
    requires i < cfg.retryMax
    ensures var (w1, fate) := Judge(cfg, i, Send(cfg, kind, token, w, r), r);
            var run, (w2, solved) := Attempt(cfg, kind, i, token, w, r), Challenge(cfg, Punish(cfg, kind, i, w1, r), r);
            if fate.Finish? then
              run == Run(fate.outcome, if fate.outcome.Done? then Reward(cfg, kind, i, w1, r) else w1)
            else if fate.Again? then run == Recur(cfg, kind, i, fate.error, w1, r)
            else run == if solved then Loop(cfg, kind, i, w2) else Recur(cfg, kind, i, fate.error, w2, r)
  {
    hide Send, Judge, Reward, Punish, Challenge, Recur, Loop;
  }

  lemma RecurLeads(cfg: Config, kind: Request, i: nat, e: Errors.Error, w: World, r: Round)
    requires i < cfg.retryMax
    ensures var run, (w1, cut) := Recur(cfg, kind, i, e, w, r), Rest(cfg, kind, i, w, r);
            if i == cfg.retryMax - 1 then run == Run(Failed(e), w)
            else run == if cut then Run(Failed(Errors.Cancelled), w1) else Loop(cfg, kind, i + 1, w1)
  {
    hide Rest, Loop;
  }

  /** The callback hears of a block before the subsystems do; the order makes no difference to them. */
  lemma CallbackFirst(cfg: Config, kind: Request, i: nat, w: World, r: Round)
    ensures var ab, e := cfg.antiBot, BlockEvent(kind, i, w, r);
            var w1 := w.(onBlocked := w.onBlocked + [BlockedCall(kind, i + 1)], now := e.failed);
            var w2 := Tell(ab, RateLimiter.OnBlock, Breaker.Block(e.checked, e.stamped), Some(e.failed), i + 1, w1);
            Note(Forget(ab, w2), e) == Punish(cfg, kind, i, w, r)
  {
    var e := BlockEvent(kind, i, w, r);
    TellLater(cfg.antiBot, RateLimiter.OnBlock, Breaker.Block(e.checked, e.stamped), Some(e.failed), i + 1,
              w.(now := e.failed), w.onBlocked + [BlockedCall(kind, i + 1)]);
    hide Tell;
  }

  lemma TellLater(ab: AntiBot, pace: RateLimiter.Op, op: Breaker.Op, failed: Option<Instant>, n: nat, w: World,
                  calls: seq<BlockedCall>)
    ensures Tell(ab, pace, op, failed, n, w.(onBlocked := calls))
            == Tell(ab, pace, op, failed, n, w).(onBlocked := calls)
  {
    LimiterLater(ab, pace, w, calls);
    BreakerLater(ab, op, n, TellLimiter(ab, pace, w), calls);
    ProxyLater(ab, failed, TellBreaker(ab, op, n, TellLimiter(ab, pace, w)), calls);
    hide TellLimiter, TellBreaker, TellProxy;
  }

  lemma LimiterLater(ab: AntiBot, pace: RateLimiter.Op, w: World, calls: seq<BlockedCall>)
    ensures TellLimiter(ab, pace, w.(onBlocked := calls)) == TellLimiter(ab, pace, w).(onBlocked := calls)
  {
    hide RateLimiter.Step;
  }

  lemma BreakerLater(ab: AntiBot, op: Breaker.Op, n: nat, w: World, calls: seq<BlockedCall>)
    ensures TellBreaker(ab, op, n, w.(onBlocked := calls)) == TellBreaker(ab, op, n, w).(onBlocked := calls)
  {
    hide Breaker.Step, Breaker.Open;
  }

  lemma ProxyLater(ab: AntiBot, failed: Option<Instant>, w: World, calls: seq<BlockedCall>)
    ensures TellProxy(ab, failed, w.(onBlocked := calls)) == TellProxy(ab, failed, w).(onBlocked := calls)
  {
    hide Proxies.FailedAt, Proxies.Succeeded;
  }
}
