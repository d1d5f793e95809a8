/** What the three invariants give a caller, said of the trace alone. */
module Guarantees {
  import opened Basics
  import opened RetryLoop
  import opened RetrySafety
  import Backoff
  import Breaker
  import Errors
  import Proxies
  import RateLimiter

  /** In every run of a new client, no token, d.js or HTML request goes out while the breaker, by the
      history of outcomes up to that moment, is open. This includes the request that follows a nested
      token fetch. */
  lemma NoRequestWhileOpen(cfg: Config, calls: seq<Call>, now: Instant, script: seq<Round>,
                           p: Breaker.Policy)
    requires cfg.antiBot.breaker == Some(p)
    ensures var tr := Ran(cfg, calls, now, script).trace;
            forall k :: 0 <= k < |tr| && tr[k].Sent? ==> !Breaker.OpenByHistory(p, BreakerOps(tr[..k]), tr[k].at)
  {
    hide Ran, Sound, TokenOk, ProxyOk, TurnOk;
    RanSafe(cfg, calls, now, script);
    var tr := Ran(cfg, calls, now, script).trace;
    forall k | 0 <= k < |tr| && tr[k].Sent?
      ensures !Breaker.OpenByHistory(p, BreakerOps(tr[..k]), tr[k].at)
    {
      SentOk(cfg, Ran(cfg, calls, now, script), k);
    }
  }

  /** An iteration is refused exactly while the breaker, by the history of outcomes, is open. */
  lemma RefusedWhileOpen(cfg: Config, kind: Request, i: nat, w: World, r: Round)
    requires Safe(cfg, w)
    ensures Gate(cfg, kind, i, w, r).1
            <==> cfg.antiBot.breaker.Some?
                 && Breaker.OpenByHistory(cfg.antiBot.breaker.value, BreakerOps(w.trace), w.now + r.dCheck)
  {
    hide LimiterAgrees, HealthAgrees, Timely, CacheSound, Sends, InOrder;
    if cfg.antiBot.breaker.Some? {
      Breaker.RefinesHistory(cfg.antiBot.breaker.value, BreakerOps(w.trace));
    }
  }

  /** In every run, the token of a d.js request was stored straight after the clean response to a token
      request, and it is the token of that response. With invalidation on, no block was handled between
      that response and the d.js request. A token from the cache is used only before it expires, counted
      from before its request went out. The token request was for the same query, or for one that
      overlaps with it; `SharedTokens` shows that overlapping queries do share tokens. Without solvers the
      user-agent stays, and no query gets another one's token. */
  lemma TokenIsFresh(cfg: Config, calls: seq<Call>, now: Instant, script: seq<Round>, k: nat)
    returns (j: nat)
    requires var tr := Ran(cfg, calls, now, script).trace;
             k < |tr| && tr[k].Sent? && tr[k].kind.Djs?
    ensures var tr := Ran(cfg, calls, now, script).trace;
            && 1 < j < k
            && tr[j].Stored? && tr[j].token == tr[k].token
            && tr[j - 1].Clean? && tr[j - 1].kind.Vqd?
            && BroughtToken(tr[j - 2], tr[k].token) && tr[j].start <= tr[j - 2].at
            && (cfg.antiBot.vqdInvalidate ==> forall m :: j - 1 <= m < k ==> !tr[m].Block?)
            && (j == k - 1 || (tr[k - 1].CacheHit? && tr[k - 1].at < tr[j].start + cfg.vqdTTL))
            && Overlap(tr[j - 1].kind.query, tr[k].kind.query)
            && (!cfg.antiBot.solving ==> tr[j - 1].kind.query == tr[k].kind.query)
  {
    hide Ran, Sound, SendOk;
    RanSafe(cfg, calls, now, script);
    var tr := Ran(cfg, calls, now, script).trace;
    var before := tr[..k];
    SentOk(cfg, Ran(cfg, calls, now, script), k);
    SentToken(cfg, before, tr[k]);
    j :| j < |before| && before[j].Stored? && KeyFor(cfg, tr[k].kind.query, before[j].key)
         && IssuedAt(cfg, before, j, before[j].key, tr[k].token) && JustFound(cfg, before, j);
    assert before[j] == tr[j] && before[j - 1] == tr[j - 1] && before[j - 2] == tr[j - 2];
    assert before[k - 1] == tr[k - 1];
    forall m | cfg.antiBot.vqdInvalidate && j - 1 <= m < k ensures !tr[m].Block? {
      assert before[m] == tr[m];
    }
    PrefixesNest(tr[j - 1].kind.query + "|", tr[k].kind.query + "|", tr[j].key);
    if !cfg.antiBot.solving {
      SameAgentSameQuery(tr[j - 1].kind.query, tr[k].kind.query, cfg.ua);
    }
  }

  lemma PrefixesNest(a: string, b: string, key: string)
    requires a <= key && b <= key
    ensures a <= b || b <= a
  {
    if |a| <= |b| {
      assert a == key[..|a|] == b[..|a|];
    } else {
      assert b == key[..|b|] == a[..|b|];
    }
  }

  /** Two queries of which one, with the separator of the cache key behind it, begins the other. */
  predicate Overlap(q: string, q': string) {
    q + "|" <= q' + "|" || q' + "|" <= q + "|"
  }

  /** Exactly the queries that overlap can have the same cache key, with suitable user-agents. */
  lemma KeysCollide(q: string, q': string)
    ensures (exists ua, ua' :: CacheKey(q, ua) == CacheKey(q', ua')) <==> Overlap(q, q')
  {
    if Overlap(q, q') {
      var ua, ua' := Colliding(q, q');
      assert CacheKey(q, ua) == CacheKey(q', ua');
      assert exists u, u' :: CacheKey(q, u) == CacheKey(q', u');
    } else {
      forall ua, ua' ensures CacheKey(q, ua) != CacheKey(q', ua') {
        if CacheKey(q, ua) == CacheKey(q', ua') {
          PrefixesNest(q + "|", q' + "|", CacheKey(q, ua));
        }
      }
    }
  }

  /** User-agents with which two overlapping queries collide. */
  lemma Colliding(q: string, q': string) returns (ua: string, ua': string)
    requires Overlap(q, q')
    ensures CacheKey(q, ua) == CacheKey(q', ua') && ua != "" && ua' != "" && ua[|ua| - 1] == 'z'
  {
    var a, b := q + "|", q' + "|";
    if a <= b {
      ua, ua' := b[|a|..] + "z", "z";
      assert b == a + b[|a|..];
    } else {
      ua, ua' := "z", a[|b|..] + "z";
      assert a == b + a[|b|..];
    }
  }

  /** With one and the same user-agent, a key belongs to one query. */
  lemma SameAgentSameQuery(q: string, q': string, ua: string)
    requires CacheKey(q, ua) == CacheKey(q', ua)
    ensures q == q'
  {
    assert |q| == |q'|;
    assert q == CacheKey(q, ua)[..|q|] == q';
  }

  /** Queries without the separator overlap only with themselves. */
  lemma PlainQueriesDiffer(q: string, q': string)
    requires Overlap(q, q') && '|' !in q && '|' !in q'
    ensures q == q'
  {
    if q + "|" <= q' + "|" {
      PlainPrefix(q, q');
    } else {
      PlainPrefix(q', q);
    }
  }

  lemma PlainPrefix(q: string, q': string)
    requires q + "|" <= q' + "|" && '|' !in q'
    ensures q == q'
  {
    var b := q' + "|";
    assert b[|q|] == (q + "|")[|q|] == '|';
    assert |q| == |q'|;
    assert q == b[..|q|] == q';
  }

  /** One trace drives everything. In every run, each subsystem's fields are what its own operations,
      one per handled block and one per clean response, make of a fresh subsystem; and the callbacks
      were called once per handled block, and once per transition or refusal of the breaker. */
  lemma OneTraceDrivesAll(cfg: Config, calls: seq<Call>, now: Instant, script: seq<Round>)
    ensures var w := Ran(cfg, calls, now, script);
            && (cfg.antiBot.breaker.Some? ==>
                  && w.breaker == Breaker.Replay(cfg.antiBot.breaker.value, BreakerOps(w.trace))
                  && w.onCircuit == CircuitCalls(cfg.antiBot.breaker.value, w.trace)
                  && Breaker.ClockOrdered(BreakerOps(w.trace)))
            && (cfg.antiBot.limiter.Some? ==>
                  w.limiter == RateLimiter.Replay(cfg.antiBot.limiter.value, LimiterOps(w.trace)))
            && (cfg.antiBot.proxied ==> w.health == HealthAfter(cfg.health, w.trace))
            && w.onBlocked == BlockedCalls(w.trace)
            && OutcomesFollowReplies(cfg, w.trace) && RepliesAreHeeded(cfg, w.trace)
  {
    hide Ran, Sound, OutcomesFollowReplies, RepliesAreHeeded;
    RanSafe(cfg, calls, now, script);
    SoundAgrees(cfg, Ran(cfg, calls, now, script));
    PairedFollows(cfg, Ran(cfg, calls, now, script));
    HeededReplies(cfg, Ran(cfg, calls, now, script));
  }

  lemma SoundAgrees(cfg: Config, w: World)
    requires Sound(cfg, w)
    ensures Agrees(cfg, w) && Timely(w)
  {
  }

  /** Every outcome that was acted upon stands straight after its request and is charged to the proxy
      that carried it: a block comes from a blocked reply, a success from a clean one. So no other
      failure counts, and no outcome is acted upon twice. */
  predicate OutcomesFollowReplies(cfg: Config, tr: seq<Event>) {
    forall k :: 0 <= k < |tr| && (tr[k].Block? || tr[k].Clean?) ==>
                  && 0 < k && tr[k - 1].Sent? && tr[k - 1].kind == tr[k].kind && tr[k - 1].proxy == tr[k].proxy
                  && if tr[k].Block? then BlockedReply(cfg, tr[k - 1].reply) else CleanReply(cfg, tr[k - 1].reply)
  }

  lemma PairedFollows(cfg: Config, w: World)
    requires Sound(cfg, w)
    ensures OutcomesFollowReplies(cfg, w.trace)
  {
    hide Sound, BlockedReply, CleanReply;
    var tr := w.trace;
    forall k | 0 <= k < |tr| && (tr[k].Block? || tr[k].Clean?)
      ensures 0 < k && tr[k - 1].Sent? && tr[k - 1].kind == tr[k].kind && tr[k - 1].proxy == tr[k].proxy
      ensures if tr[k].Block? then BlockedReply(cfg, tr[k - 1].reply) else CleanReply(cfg, tr[k - 1].reply)
    {
      OutcomeOk(cfg, w, k);
    }
  }

  /** Every clean reply is acted upon as a success, and every blocked one as a block, straight away; only
      one that asks for a pause may be lost, when the pause is cut short. */
  predicate RepliesAreHeeded(cfg: Config, tr: seq<Event>) {
    forall k :: 0 <= k < |tr| && tr[k].Sent? ==>
                  && (CleanReply(cfg, tr[k].reply) ==> k + 1 < |tr| && tr[k + 1].Clean?)
                  && (BlockedReply(cfg, tr[k].reply) && !AsksForPause(cfg, tr[k].reply) ==>
                        k + 1 < |tr| && tr[k + 1].Block?)
  }

  lemma HeededReplies(cfg: Config, w: World)
    requires Safe(cfg, w)
    ensures RepliesAreHeeded(cfg, w.trace)
  {
    hide Sound;
    var tr := w.trace;
    forall k | 0 <= k < |tr| && tr[k].Sent? && Urgent(cfg, tr[k].reply)
      ensures k + 1 < |tr| && if CleanReply(cfg, tr[k].reply) then tr[k + 1].Clean? else tr[k + 1].Block?
    {
      assert k + 1 < |tr|;
      HeedsOk(cfg, w, k + 1);
      OutcomeOk(cfg, w, k + 1);
    }
  }

  /** How many requests went out through proxy `p` and had an outcome: any, or a block. */
  function Carried(tr: seq<Event>, p: nat, onlyBlocks: bool): nat {
    if |tr| < 2 then 0
    else
      var sent, e := tr[|tr| - 2], tr[|tr| - 1];
      Carried(tr[..|tr| - 1], p, onlyBlocks)
      + if sent.Sent? && sent.proxy == Some(p) && (e.Block? || (e.Clean? && !onlyBlocks)) then 1 else 0
  }

  /** The pool's counters balance with the requests: a proxy's requests grow by the requests that it
      carried and that had an outcome, its failures by the blocked ones among them. */
  lemma {:induction false} CountersBalance(cfg: Config, start: seq<Proxies.Vitals>, tr: seq<Event>, p: nat)
    requires p < |start| && start[p].Sane() && OutcomesFollowReplies(cfg, tr)
    ensures var h := HealthAfter(start, tr)[p];
            && h.requests == start[p].requests + Carried(tr, p, false)
            && h.failures == start[p].failures + Carried(tr, p, true)
            && h.Sane()
  {
    if tr != [] {
      var rest, e := tr[..|tr| - 1], tr[|tr| - 1];
      assert forall k :: 0 <= k < |rest| ==> rest[k] == tr[k];
      CountersBalance(cfg, start, rest, p);
      if e.Block? || e.Clean? {
        assert tr[|tr| - 2].Sent?;
      }
    }
  }

  /// An open breaker stops a search

  /** Nothing but refusals and warmup requests. */
  predicate Idle(tr: seq<Event>, since: nat) {
    forall k :: since <= k < |tr| ==> tr[k].Rejected? || tr[k].WarmupSent?
  }

  lemma LoopWhileOpen(cfg: Config, kind: Request, w: World, end: Instant)
    requires cfg.antiBot.breaker.Some? && Breaker.Open(w.breaker, end)
    requires Loop(cfg, kind, 0, w).w.now <= end
    ensures var run := Loop(cfg, kind, 0, w);
            && (run.outcome == Failed(Errors.CircuitOpen) || run.outcome == Unfinished)
            && (run.w.trace == w.trace
                || (|run.w.trace| == |w.trace| + 1 && run.w.trace[|w.trace|].Rejected?))
            && run.w.breaker == w.breaker
  {
    hide Gate, Pace, Prepare, Attempt, Breaker.Open;
    if w.script != [] {
      GateWhileOpen(cfg, kind, w.(script := w.script[1..]), w.script[0], end);
    }
  }

  lemma GateWhileOpen(cfg: Config, kind: Request, w: World, r: Round, end: Instant)
    requires cfg.antiBot.breaker.Some? && Breaker.Open(w.breaker, end)
    ensures var (w', open) := Gate(cfg, kind, 0, w, r);
            w'.now <= end ==> open && w'.trace == w.trace + [Rejected(kind, 1, w'.now)]
  {
  }

  /** A search that runs wholly within an open period sends nothing but warmup requests, leaves the
      breaker alone, and fails with the open breaker as its root cause, hence as an unavailable
      provider. */
  lemma SearchWhileOpen(cfg: Config, query: string, max: int, offset: int, w: World)
    requires cfg.antiBot.breaker.Some? && query != ""
    requires Breaker.Open(w.breaker, Search(cfg, query, max, offset, w).w.now)
    ensures var run := Search(cfg, query, max, offset, w);
            && Idle(run.w.trace, |w.trace|)
            && run.w.breaker == w.breaker
            && !run.outcome.Done?
            && (run.outcome.Failed? ==>
                  && Errors.Leaf(run.outcome.error) == Errors.CircuitOpen
                  && Errors.Classify("ddg", run.outcome.error).kind == Errors.KindProviderUnavailable)
  {
    hide Loop, Errors.Classify;
    var end := Search(cfg, query, max, offset, w).w.now;
    var warm := Warmup(cfg, w);
    WarmupIdle(cfg, w);
    if !warm.outcome.Unfinished? {
      var djs := SearchDjs(cfg, query, offset, warm.w);
      LoopWhileOpen(cfg, Djs(query, offset), warm.w, end);
      if djs.outcome.Failed? && !cfg.noFallback {
        LoopWhileOpen(cfg, Html(query, offset), djs.w, end);
      }
    }
    var run := Search(cfg, query, max, offset, w);
    if run.outcome.Failed? {
      Errors.OpenBreakerIsUnavailable("ddg", run.outcome.error);
    }
  }

  lemma WarmupIdle(cfg: Config, w: World)
    ensures var run := Warmup(cfg, w);
            Idle(run.w.trace, |w.trace|) && run.w.breaker == w.breaker && !run.outcome.Failed?
  {
  }

  /// What the options enable

  /** Which subsystems a client has, by its options: a breaker unless the threshold is zero, a limiter and
      a session when asked for, solvers when there are some. Settings that are not positive stand for
      five blocks, a minute, 300 milliseconds, 30 seconds and 20 minutes. */
  lemma OptionsEnable(s: Settings)
    ensures var ab, second := Build(s), 1_000_000_000;
            && (ab.breaker.Some? <==> s.threshold != 0)
            && (ab.breaker.Some? ==>
                  && ab.breaker.value.threshold == (if s.threshold > 0 then s.threshold else 5)
                  && ab.breaker.value.cooldown == if s.cooldown > 0 then s.cooldown else 60 * second)
            && (ab.limiter.Some? <==> s.adaptive)
            && (ab.limiter.Some? ==>
                  && ab.limiter.value.base == (if s.adaptiveBase > 0 then s.adaptiveBase else 3 * second / 10)
                  && ab.limiter.value.max == if s.adaptiveMax > 0 then s.adaptiveMax else 30 * second)
            && (ab.warmupTTL.Some? <==> s.sessionWarmup)
            && (ab.warmupTTL.Some? ==>
                  ab.warmupTTL.value == if s.warmupTTL > 0 then s.warmupTTL else 20 * 60 * second)
            && (ab.solving <==> s.solvers > 0) && (ab.proxied <==> s.proxied)
            && (ab.vqdInvalidate <==> s.vqdInvalidate) && (ab.sessionInvalidate <==> s.sessionInvalidate)
  {
  }

  /// The session

  /** A search sends homepage requests exactly when the session is not warm or too old. Two of them make
      it warm as of then; when the first is lost, nothing changes. */
  lemma SessionDecides(cfg: Config, w: World, ttl: Positive)
    requires cfg.antiBot.warmupTTL == Some(ttl) && w.script != []
    ensures var r, run, n := w.script[0], Warmup(cfg, w), |w.trace|;
            && run.outcome == Done(()) && w.trace <= run.w.trace && Idle(run.w.trace, n)
            && if w.warmed && w.now + r.dCheck <= w.lastWarmup + ttl then
                 run.w.trace == w.trace && run.w.warmed && run.w.lastWarmup == w.lastWarmup
               else if r.reply.Lost? then
                 |run.w.trace| == n + 1 && run.w.warmed == w.warmed && run.w.lastWarmup == w.lastWarmup
               else
                 |run.w.trace| == n + 2 && run.w.warmed && run.w.lastWarmup == run.w.now
  {
    var r := w.script[0];
    var w1 := Tick(w.(script := w.script[1..]), r.dCheck);
    PickKeepsSession(cfg, Tick(w1, r.dSend), r.proxyDraw);
    var w2 := PickProxy(cfg, Tick(w1, r.dSend), r.proxyDraw);
    PickKeepsSession(cfg, Tick(Note(w2, WarmupSent(w2.lastProxy, w2.now)), r.dReply), r.warmupDraw);
    hide PickProxy;
  }

  lemma PickKeepsSession(cfg: Config, w: World, draw: nat)
    ensures var w' := PickProxy(cfg, w, draw);
            w'.warmed == w.warmed && w'.lastWarmup == w.lastWarmup && w'.now == w.now
  {
    hide Proxies.PickFrom;
  }

  /** A handled block ends the session exactly when it is told to, and throws away all tokens exactly when
      it is told to; a clean response does neither. */
  lemma BlocksForget(cfg: Config, kind: Request, i: nat, w: World, r: Round)
    ensures var blocked, clean, ab := Punish(cfg, kind, i, w, r), Reward(cfg, kind, i, w, r), cfg.antiBot;
            && blocked.warmed == (w.warmed && !(ab.sessionInvalidate && ab.warmupTTL.Some?))
            && blocked.cache == (if ab.vqdInvalidate then map[] else w.cache)
            && clean.warmed == w.warmed && clean.cache == w.cache
            && blocked.lastWarmup == clean.lastWarmup == w.lastWarmup
  {
    hide Tell;
    var ab, e, at := cfg.antiBot, BlockEvent(kind, i, w, r), w.now + r.dRecord;
    TellKeepsSession(ab, RateLimiter.OnBlock, Breaker.Block(e.checked, e.stamped), Some(e.failed), i + 1,
                     w.(now := e.failed));
    TellKeepsSession(ab, RateLimiter.OnSuccess, Breaker.Success(at), None, i + 1, w.(now := at));
  }

  lemma TellKeepsSession(ab: AntiBot, pace: RateLimiter.Op, op: Breaker.Op, failed: Option<Instant>, attempt: nat,
                         w: World)
    ensures var w' := Tell(ab, pace, op, failed, attempt, w);
            w'.warmed == w.warmed && w'.lastWarmup == w.lastWarmup
  {
    hide Breaker.Step, RateLimiter.Step;
  }

  /// The proxy of each request

  /** The outcomes that were charged to a proxy: when each block was recorded, or None for a success. */
  function OutcomesOf(tr: seq<Event>, p: nat): seq<Option<Instant>> {
    if tr == [] then []
    else
      OutcomesOf(tr[..|tr| - 1], p)
      + match tr[|tr| - 1] {
        case Block(_, _, proxy, _, _, failed) => if proxy == Some(p) then [Some(failed)] else []
        case Clean(_, _, proxy, _) => if proxy == Some(p) then [None] else []
        case _ => []
      }
  }

  lemma {:induction false} HealthIsHistory(start: seq<Proxies.Vitals>, tr: seq<Event>, p: nat)
    requires p < |start|
    ensures HealthAfter(start, tr)[p] == Proxies.After(start[p], OutcomesOf(tr, p))
  {
    if tr != [] {
      var rest, e := tr[..|tr| - 1], tr[|tr| - 1];
      HealthIsHistory(start, rest, p);
      var outs, outs' := OutcomesOf(rest, p), OutcomesOf(tr, p);
      if (e.Block? || e.Clean?) && e.proxy == Some(p) {
        assert outs'[..|outs'| - 1] == outs;
      } else {
        assert outs' == outs;
      }
    }
  }

  /** In cooldown by what the trace charged to this proxy: its outcomes end with at least `maxFails`
      blocks, and the last of them is no older than the cooldown. */
  predicate CoolingBy(cfg: Config, tr: seq<Event>, p: nat, now: Instant)
    requires p < |cfg.health|
  {
    Proxies.Cooling(cfg.proxies.rules, cfg.health[p], OutcomesOf(tr, p), now)
  }

  /** In every run, each request, also one to the homepage, goes out through a proxy that is not in
      cooldown, by the outcomes of all exchanges before it; and directly, without any proxy, only when
      all proxies are. */
  lemma ProxyOfEachRequest(cfg: Config, calls: seq<Call>, now: Instant, script: seq<Round>, k: nat)
    requires cfg.antiBot.proxied && cfg.proxies.Drawable()
    requires var tr := Ran(cfg, calls, now, script).trace;
             k < |tr| && (tr[k].Sent? || tr[k].WarmupSent?)
    ensures var tr, n := Ran(cfg, calls, now, script).trace, |cfg.health|;
            if tr[k].proxy.Some? then
              && tr[k].proxy.value < n
              && !CoolingBy(cfg, tr[..k], tr[k].proxy.value, tr[k].at)
            else
              forall p: nat :: p < n ==> CoolingBy(cfg, tr[..k], p, tr[k].at)
  {
    hide Ran, Sound, HealthAfter, Proxies.Usable, Proxies.Cooling, Proxies.After;
    RanSafe(cfg, calls, now, script);
    RouteAt(cfg, Ran(cfg, calls, now, script), k);
    var tr := Ran(cfg, calls, now, script).trace;
    forall p: nat | p < |cfg.health|
      ensures Proxies.Usable(cfg.proxies.rules, HealthAfter(cfg.health, tr[..k])[p], tr[k].at)
              <==> !CoolingBy(cfg, tr[..k], p, tr[k].at)
    {
      HealthIsHistory(cfg.health, tr[..k], p);
      Proxies.CooldownByHistory(cfg.proxies.rules, cfg.health[p], OutcomesOf(tr[..k], p), tr[k].at);
    }
  }

  /// The fixed gap

  /** In every run, any two turns that were taken are at least the fixed gap apart, and the client's
      own field is the time of the last one. A cancelled wait takes none. */
  lemma TurnsKeepTheGap(cfg: Config, calls: seq<Call>, now: Instant, script: seq<Round>)
    requires cfg.minGap > 0
    ensures var w := Ran(cfg, calls, now, script);
            && w.lastTurn == LastTurn(w.trace)
            && forall j, k :: 0 <= j < k < |w.trace| && w.trace[j].Turn? && w.trace[k].Turn? ==>
                                w.trace[k].at >= w.trace[j].at + cfg.minGap
  {
    hide Ran, Agrees, Timely, CacheSound, Sends, Paired, AllHeeded, AllIssued, TurnsSpaced;
    RanSafe(cfg, calls, now, script);
    var tr := Ran(cfg, calls, now, script).trace;
    forall j, k | 0 <= j < k < |tr| && tr[j].Turn? && tr[k].Turn? ensures tr[k].at >= tr[j].at + cfg.minGap {
      TurnsApart(cfg.minGap, tr, j, k);
    }
  }

  lemma TurnsApart(gap: Positive, tr: seq<Event>, j: nat, k: nat)
    requires j < k < |tr| && tr[j].Turn? && tr[k].Turn? && TurnsSpaced(gap, tr)
    ensures tr[k].at >= tr[j].at + gap
  {
    LaterTurn(gap, tr, j, k);
    assert InTurn(gap, LastTurn(tr[..k]), tr[k]);
  }

  /** From a turn on, the last turn is never earlier than it. */
  lemma {:induction false} LaterTurn(gap: Positive, tr: seq<Event>, j: nat, k: nat)
    requires j < k <= |tr| && tr[j].Turn? && TurnsSpaced(gap, tr)
    ensures LastTurn(tr[..k]) >= tr[j].at
  {
    assert tr[..k][..k - 1] == tr[..k - 1];
    if k - 1 > j {
      LaterTurn(gap, tr, j, k - 1);
      assert tr[k - 1].Turn? ==> InTurn(gap, LastTurn(tr[..k - 1]), tr[k - 1]);
    }
  }

  /** Nobody waits longer than that: an iteration goes on at its slot, or at the end of the gap, or at
      once when that is past; `dWake` is what waking up takes. Only a wait can be cut short. */
  lemma WaitsNoLonger(cfg: Config, w: World, r: Round)
    ensures var (w', cut) := Pace(cfg, w, r);
            var here, first := w.now + r.dTurn, w.lastTurn == ZERO_TIME;
            match cfg.antiBot.limiter
            case Some(_) =>
              var slot := w'.limiter.lastReq;
              if slot > here then (!cut ==> w'.now == slot + r.dWake) else !cut && w'.now == here
            case None =>
              if cfg.minGap <= 0 || first then !cut && w'.now == here
              else if w.lastTurn + cfg.minGap > here then
                (!cut ==> w'.now == w.lastTurn + cfg.minGap + r.dWake)
              else !cut && w'.now == here + r.dWake
  {
    hide RateLimiter.Jittered;
  }

  /** Where request `k` took its turn: straight before it, or before it found its token in the cache. */
  function TurnOf(tr: seq<Event>, k: nat): int
    requires k < |tr| && tr[k].Sent?
  {
    if tr[k].kind.Djs? then k - 2 else k - 1
  }

  /** A d.js request that had to fetch its token. */
  predicate Fetched(tr: seq<Event>, k: nat)
    requires k < |tr| && tr[k].Sent?
  {
    tr[k].kind.Djs? && (k == 0 || !tr[k - 1].CacheHit?)
  }

  /** With the fixed gap, every request has taken a turn of its own, so it goes out at least the gap
      after the turn of any earlier one; except for a d.js request that had to fetch its token: that one
      follows the clean reply to the token request straight away. */
  lemma RequestsTakeTurns(cfg: Config, calls: seq<Call>, now: Instant, script: seq<Round>, k: nat)
    requires cfg.antiBot.limiter == None && cfg.minGap > 0
    requires var tr := Ran(cfg, calls, now, script).trace;
             k < |tr| && tr[k].Sent?
    ensures var tr := Ran(cfg, calls, now, script).trace;
            if Fetched(tr, k) then
              && k >= 3 && tr[k - 1].Stored? && tr[k - 2].Clean? && tr[k - 3].Sent? && tr[k - 3].kind.Vqd?
            else
              && var t := TurnOf(tr, k);
                 && 0 <= t && tr[t].Turn? && tr[t].at <= tr[k].at
                 && forall j :: 0 <= j < t && tr[j].Turn? ==> tr[k].at >= tr[j].at + cfg.minGap
  {
    hide Ran, Sound, SendOk, OutcomesFollowReplies, RepliesAreHeeded, TokenOk;
    var tr := Ran(cfg, calls, now, script).trace;
    RanSafe(cfg, calls, now, script);
    SentOk(cfg, Ran(cfg, calls, now, script), k);
    SentToken(cfg, tr[..k], tr[k]);
    if tr[k].kind.Djs? {
      var j := TokenIsFresh(cfg, calls, now, script, k);
    }
    if Fetched(tr, k) {
      OneTraceDrivesAll(cfg, calls, now, script);
      OutcomeAt(cfg, tr, k - 2);
    } else {
      TurnsKeepTheGap(cfg, calls, now, script);
    }
  }

  /** With the adaptive limiter, every request has reserved a slot of its own and goes out no earlier than
      that slot, which keeps the limiter's gap to every slot before; the exception is the same. */
  lemma RequestsWaitForSlots(cfg: Config, calls: seq<Call>, now: Instant, script: seq<Round>, k: nat,
                             range: RateLimiter.Range)
    requires cfg.antiBot.limiter == Some(range)
    requires var tr := Ran(cfg, calls, now, script).trace;
             k < |tr| && tr[k].Sent? && !Fetched(tr, k)
    ensures var tr := Ran(cfg, calls, now, script).trace;
            var t := TurnOf(tr, k);
            && 0 <= t && tr[t].Slot? && SlotAt(range, tr, t) <= tr[k].at
            && forall j :: 0 <= j < t && tr[j].Slot? ==>
                             SlotAt(range, tr, t) >= SlotAt(range, tr, j) + RateLimiter.Gap(range)
  {
    hide Ran, Sound, SendOk, OutcomesFollowReplies, RepliesAreHeeded, TokenOk, SlotAt, LimiterAfter;
    var tr := Ran(cfg, calls, now, script).trace;
    RanSafe(cfg, calls, now, script);
    SentOk(cfg, Ran(cfg, calls, now, script), k);
    SentToken(cfg, tr[..k], tr[k]);
    var t := TurnOf(tr, k);
    assert tr[..k][t] == tr[t];
    if tr[k].kind.Djs? {
      assert tr[..k][k - 1] == tr[k - 1];
    }
    SlotStays(range, tr, t, k);
    forall j | 0 <= j < t && tr[j].Slot?
      ensures SlotAt(range, tr, t) >= SlotAt(range, tr, j) + RateLimiter.Gap(range)
    {
      SlotsApart(range, tr, j, t);
    }
  }

  /** The slot that the event at `t` reserved. */
  function SlotAt(range: RateLimiter.Range, tr: seq<Event>, t: nat): nat
    requires t < |tr|
  {
    LimiterAfter(range, tr[..t + 1]).lastReq
  }

  lemma SlotStays(range: RateLimiter.Range, tr: seq<Event>, t: nat, k: nat)
    requires t < k <= |tr| && k <= t + 2 && (k == t + 2 ==> tr[t + 1].CacheHit?)
    ensures LimiterAfter(range, tr[..k]).lastReq == SlotAt(range, tr, t)
  {
    if k == t + 2 {
      assert tr[..k] == tr[..t + 1] + [tr[t + 1]];
      LimiterAppend(range, tr[..t + 1], tr[t + 1]);
    }
  }

  lemma SlotsApart(range: RateLimiter.Range, tr: seq<Event>, j: nat, t: nat)
    requires j < t < |tr| && tr[j].Slot? && tr[t].Slot?
    ensures SlotAt(range, tr, t) >= SlotAt(range, tr, j) + RateLimiter.Gap(range)
  {
    hide LimiterAfter, RateLimiter.Gap;
    LaterSlot(range, tr, j, t);
    SlotMovesOn(range, tr, t);
  }

  /** The last slot never moves back, and a new one keeps the gap to it. */
  lemma SlotMovesOn(range: RateLimiter.Range, tr: seq<Event>, k: nat)
    requires k < |tr|
    ensures var last, slot := LimiterAfter(range, tr[..k]).lastReq, SlotAt(range, tr, k);
            && slot >= last
            && (tr[k].Slot? ==> slot > 0 && (last > 0 ==> slot >= last + RateLimiter.Gap(range)))
  {
    hide LimiterAfter, LimiterOps, RateLimiter.Gaussian;
    assert tr[..k + 1] == tr[..k] + [tr[k]];
    LimiterAppend(range, tr[..k], tr[k]);
  }

  lemma {:induction false} LaterSlot(range: RateLimiter.Range, tr: seq<Event>, j: nat, k: nat)
    requires j < k <= |tr| && tr[j].Slot?
    ensures LimiterAfter(range, tr[..k]).lastReq >= SlotAt(range, tr, j) > 0
  {
    hide LimiterAfter, RateLimiter.Gap;
    SlotMovesOn(range, tr, k - 1);
    if k - 1 > j {
      LaterSlot(range, tr, j, k - 1);
    }
  }

  lemma OutcomeAt(cfg: Config, tr: seq<Event>, k: nat)
    requires OutcomesFollowReplies(cfg, tr) && k < |tr| && tr[k].Clean?
    ensures 0 < k && tr[k - 1].Sent? && tr[k - 1].kind == tr[k].kind
  {
  }

  /// Backoff

  /** In every run, each pause comes straight after a failed request of its kind, or the block that this
      was, and its length is the base delay times two to the power of its exponent, within the jitter:
      at least that with the smallest jitter, rounded down, and at most that with the largest. This is
      so as long as the latter fits in 64 bits. */
  lemma PausesAreExponential(cfg: Config, calls: seq<Call>, now: Instant, script: seq<Round>, k: nat)
    requires cfg.jitterFrac >= 0.0
    requires var tr := Ran(cfg, calls, now, script).trace;
             k < |tr| && tr[k].Slept?
    ensures var tr := Ran(cfg, calls, now, script).trace;
            var unit := (cfg.baseDelay * Backoff.Pow2(tr[k].exponent)) as real;
            && k > 0 && (tr[k - 1].Sent? || tr[k - 1].Block?) && tr[k - 1].kind == tr[k].kind
            && tr[k].d > 0
            && (unit * (1.0 + cfg.jitterFrac) < Backoff.TWO_63 as real ==>
                  unit * (1.0 - cfg.jitterFrac) - 1.0 < tr[k].d as real <= unit * (1.0 + cfg.jitterFrac))
  {
    hide Ran, Sound, Backoff.Doubled;
    RanSafe(cfg, calls, now, script);
    PauseAt(cfg, Ran(cfg, calls, now, script), k);
    Backoff.DoubledIsProduct(cfg.baseDelay, Ran(cfg, calls, now, script).trace[k].exponent);
  }

  /// Retry-After

  /** A block that asks for a pause is handled only after that pause, and nothing is sent before. When
      the context is cancelled during the pause, the loop ends at once and nobody hears of the block. */
  lemma RetryAfterIsHonoured(cfg: Config, kind: Request, i: nat, token: string, w: World, r: Round)
    requires i < cfg.retryMax - 1
    requires r.reply.Response? && r.reply.status in cfg.blocked && r.reply.retryAfter > 0
    ensures var run := Attempt(cfg, kind, i, token, w, r);
            var sent := Send(cfg, kind, token, w, r).trace;
            if r.retryCut then
              && run.outcome == Failed(Errors.Cancelled) && run.w.trace == sent && Untouched(w, run.w)
            else
              && sent < run.w.trace && run.w.trace[|sent|].Block?
              && run.w.trace[|sent|].checked >= w.now + r.dSend + r.dReply + r.reply.retryAfter * SECOND
  {
    hide Punish, Challenge, Recur, Loop, BlockEvent;
    if !r.retryCut {
      var (w1, fate) := Judge(cfg, i, Send(cfg, kind, token, w, r), r);
      var w2 := Punish(cfg, kind, i, w1, r);
      assert w2.trace == Send(cfg, kind, token, w, r).trace + [BlockEvent(kind, i, w1, r)];
      assert w2.trace <= Attempt(cfg, kind, i, token, w, r).w.trace;
    }
  }

  /** No subsystem and no callback heard anything. */
  predicate Untouched(w: World, w': World) {
    && w'.breaker == w.breaker && w'.limiter == w.limiter && w'.health == w.health
    && w'.cache == w.cache && w'.warmed == w.warmed
    && w'.onBlocked == w.onBlocked && w'.onCircuit == w.onCircuit
  }
}
