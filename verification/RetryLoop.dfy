/** The reference machine of the search client: what one call does to the world, given everything the
    environment answers.

    The environment is a script: one round per iteration of a retry loop, holding every reading of the
    clock (as time that passes), every reply, every cancellation and every random draw of that
    iteration. A nested token fetch takes its rounds from the same script. Scripts are finite but of
    any length: when one ends in the middle of a call, the call is `Unfinished`, so whatever is proved
    of all scripts holds at every moment of a run that never ends. */
module RetryLoop {
  import opened Basics
  import opened Errors
  import Backoff
  import Breaker
  import Proxies
  import RateLimiter
  import Solver = ChallengeSolver

  /// Configuration

  /** The optional anti-bot subsystems; a missing one is None or false. */
  datatype AntiBot = AntiBot(
    breaker: Option<Breaker.Policy>,
    limiter: Option<RateLimiter.Range>,
    warmupTTL: Option<Positive>,
    proxied: bool,
    solving: bool,
    vqdInvalidate: bool,
    sessionInvalidate: bool)

  /** The options of a client, with the state that its proxy pool was in when the client was made. */
  datatype Config = Config(
    retryMax: Positive,
    baseDelay: Positive,
    jitterFrac: real,
    saturates: bool,
    vqdTTL: Positive,
    minGap: int,
    noFallback: bool,
    blocked: set<int>,
    antiBot: AntiBot,
    proxies: Proxies.Plan,
    health: seq<Proxies.Vitals>,
    rrIndex: nat,
    ua: string)

  /** The anti-bot options as the caller writes them. */
  datatype Settings = Settings(
    sessionWarmup: bool,
    warmupTTL: int,
    proxied: bool,
    adaptive: bool,
    adaptiveBase: int,
    adaptiveMax: int,
    solvers: nat,
    threshold: int,
    cooldown: int,
    vqdInvalidate: bool,
    sessionInvalidate: bool)

  function OrDefault(d: int, default: Positive): Positive {
    if d <= 0 then default else d
  }

  /** Which subsystems the options enable, with the defaults for settings that are not positive. */
  function Build(s: Settings): AntiBot {
    AntiBot(
      if s.threshold != 0 then Some(Breaker.Normalized(s.threshold, s.cooldown)) else None,
      if s.adaptive
      then Some(RateLimiter.Range(OrDefault(s.adaptiveBase, 300 * MILLISECOND), OrDefault(s.adaptiveMax, 30 * SECOND)))
      else None,
      if s.sessionWarmup then Some(OrDefault(s.warmupTTL, 1200 * SECOND)) else None,
      s.proxied,
      s.solvers > 0,
      s.vqdInvalidate,
      s.sessionInvalidate)
  }

  /// The environment

  datatype Item = Item(title: string, url: string)

  /** What the d.js parser makes of a body. */
  datatype Parsed = Items(items: seq<Item>) | Garbled(error: Error)

  /** A response body, as the three parsers and the block patterns see it. */
  datatype Body = Body(flagged: bool, vqd: string, djs: Parsed, html: seq<Item>)

  /** A failed exchange, or a response. */
  datatype Reply =
    | Lost(text: string)
    | Response(status: int, retryAfter: int, body: Body)

  /** Everything the environment contributes to one iteration, in the order in which it is used.
      Names in `d...` are the time that passes before the reading they precede. */
  datatype Round = Round(
    dCheck: nat,
    dTurn: nat, z: real, waitCut: bool, dWake: nat,
    dLookup: nat,
    buildFails: bool,
    dSend: nat, proxyDraw: nat, warmupDraw: nat,
    dReply: nat, reply: Reply,
    dRetryAfter: nat, retryCut: bool,
    dRecord: nat, dStamp: nat, dFail: nat,
    answers: seq<Solver.Answer>, dSolve: nat,
    u: Backoff.Draw, sleepCut: bool, dSleep: nat)

  /// The world

  /** The three requests that go through the retry loop. */
  datatype Request =
    | Vqd(query: string)
    | Djs(query: string, offset: int)
    | Html(query: string, offset: int)

  datatype Token = Token(value: string, expires: int)

  /** The calls made on the two callbacks. */
  datatype BlockedCall = BlockedCall(kind: Request, attempt: nat)
  datatype Trigger = FailFast | ThresholdReached | SuccessReset
  datatype CircuitCall = CircuitCall(trigger: Trigger, attempt: nat, snap: Breaker.Snapshot)

  /** The one trace of a client's life: every request, every outcome that was acted upon, and every
      pause. */
  datatype Event =
    | Rejected(kind: Request, attempt: nat, at: Instant)
    | Slot(at: Instant, z: real)
    | Turn(at: Instant)
    | CacheHit(key: string, token: string, at: Instant)
    | Sent(kind: Request, token: string, proxy: Option<nat>, at: Instant, reply: Reply)
    | Block(kind: Request, attempt: nat, proxy: Option<nat>, checked: Instant, stamped: Instant, failed: Instant)
    | Clean(kind: Request, attempt: nat, proxy: Option<nat>, at: Instant)
    | Stored(key: string, token: string, start: Instant)
    | Solved(ua: string)
    | Slept(kind: Request, exponent: nat, d: nat)
    | WarmupSent(proxy: Option<nat>, at: Instant)

  datatype World = World(
    now: Instant,
    script: seq<Round>,
    breaker: Breaker.State,
    limiter: RateLimiter.State,
    lastTurn: nat,
    cache: map<string, Token>,
    ua: string,
    health: seq<Proxies.Vitals>,
    rrIndex: nat,
    lastProxy: Option<nat>,
    warmed: bool,
    lastWarmup: nat,
    onBlocked: seq<BlockedCall>,
    onCircuit: seq<CircuitCall>,
    trace: seq<Event>)

  /** A client that was just made. */
  function Initial(cfg: Config, now: Instant, script: seq<Round>): World {
    World(now, script, Breaker.FRESH,
          if cfg.antiBot.limiter.Some? then RateLimiter.Fresh(cfg.antiBot.limiter.value) else NO_LIMITER,
          ZERO_TIME, map[], cfg.ua, cfg.health, cfg.rrIndex, None, false, ZERO_TIME, [], [], [])
  }

  const NO_LIMITER: RateLimiter.State := RateLimiter.State(0, ZERO_TIME)

  datatype Outcome<+T> =
    | Done(value: T)
    | Failed(error: Error)
    | Unfinished

  datatype Run<+T> = Run(outcome: Outcome<T>, w: World)

  /** The later world continues the earlier one. */
  predicate Continues(w: World, w': World) {
    && w.now <= w'.now
    && |w'.script| <= |w.script|
    && w.trace <= w'.trace
    && |w'.health| == |w.health|
  }

  /** A phase that neither consumes rounds nor touches breaker, token cache or user-agent. */
  predicate Calm(w: World, w': World) {
    && Continues(w, w') && w'.script == w.script
    && w'.breaker == w.breaker && w'.cache == w.cache && w'.ua == w.ua
  }

  function Tick(w: World, d: nat): World {
    w.(now := w.now + d)
  }

  function Note(w: World, e: Event): World {
    w.(trace := w.trace + [e])
  }

  function Report(w: World, trigger: Trigger, attempt: nat, p: Breaker.Policy, s: Breaker.State): World {
    w.(onCircuit := w.onCircuit
                    + [CircuitCall(trigger, attempt, Breaker.Snapshot(p, s.consecutive, s.openUntil))])
  }

  /// One iteration, phase by phase

  /** The breaker check; true means fail fast. */
  function Gate(cfg: Config, kind: Request, i: nat, w: World, r: Round): (g: (World, bool))
    ensures Calm(w, g.0)
    ensures g.0.trace == w.trace || g.0.trace == w.trace + [Rejected(kind, i + 1, g.0.now)]
  {
    var w1 := Tick(w, r.dCheck);
    match cfg.antiBot.breaker
    case Some(p) =>
      if Breaker.Open(w1.breaker, w1.now)
      then (Note(Report(w1, FailFast, i + 1, p, w1.breaker), Rejected(kind, i + 1, w1.now)), true)
      else (w1, false)
    case None => (w1, false)
  }

  /** A sleep; true means that the context was cancelled during it. */
  function Sleep(w: World, d: nat, cut: bool, dWake: nat): (s: (World, bool)) {
    if cut then (Tick(w, dWake), true) else (Tick(w, d + dWake), false)
  }

  /** The rate limit: the adaptive limiter if there is one, else the fixed gap. */
  function Pace(cfg: Config, w: World, r: Round): (g: (World, bool))
    ensures Calm(w, g.0)
    ensures g.0.trace == w.trace || g.0.trace == w.trace + [Slot(w.now + r.dTurn, r.z)]
            || g.0.trace == w.trace + [Turn(g.0.now)]
  {
    var w1 := Tick(w, r.dTurn);
    match cfg.antiBot.limiter
    case Some(range) => TakeSlot(range, w1, r)
    case None => if cfg.minGap <= 0 then (w1, false) else TakeTurn(cfg.minGap, w1, r)
  }

  /** The slot stays reserved when the sleep until it is cut short. */
  function TakeSlot(range: RateLimiter.Range, w: World, r: Round): (g: (World, bool))
    ensures Calm(w, g.0)
    ensures g.0.trace == w.trace + [Slot(w.now, r.z)]
  {
    var wait := RateLimiter.Delay(range, w.limiter, w.now, r.z);
    var w1 := Note(w.(limiter := RateLimiter.Step(range, w.limiter, RateLimiter.Wait(w.now, r.z))),
                   Slot(w.now, r.z));
    if wait == 0 then (w1, false) else Sleep(w1, wait, r.waitCut, r.dWake)
  }

  /** The turn is taken only after the sleep. */
  function TakeTurn(minGap: Positive, w: World, r: Round): (g: (World, bool))
    ensures Calm(w, g.0)
    ensures g.0.trace == w.trace || g.0.trace == w.trace + [Turn(g.0.now)]
  {
    if w.lastTurn == ZERO_TIME then (Note(w.(lastTurn := w.now), Turn(w.now)), false)
    else
      var wait := w.lastTurn + minGap - w.now;
      var (w1, cut) := if wait > 0 then Sleep(w, wait, r.waitCut, r.dWake) else (Tick(w, r.dWake), false);
      if cut then (w1, true) else (Note(w1.(lastTurn := w1.now), Turn(w1.now)), false)
  }

  /** What an exchange leads to. */
  datatype Fate =
    | Finish(outcome: Outcome<Body>)
    | Handle(error: Error)
    | Again(error: Error)

  /** The transport picks a proxy for an exchange and remembers it; when every proxy is in cooldown it
      picks none, and the exchange goes out directly. */
  function PickProxy(cfg: Config, w: World, draw: nat): (w': World)
    ensures Calm(w, w') && w'.trace == w.trace
  {
    if !cfg.antiBot.proxied then w
    else
      var pick := Proxies.PickFrom(cfg.proxies, w.health, w.rrIndex, w.now, draw);
      w.(lastProxy := pick, rrIndex := Proxies.Turned(cfg.proxies, w.rrIndex, pick))
  }

  function Send(cfg: Config, kind: Request, token: string, w: World, r: Round): (w': World)
    ensures Calm(w, w')
    ensures w'.trace == w.trace + [Sent(kind, token, w'.lastProxy, w.now + r.dSend, r.reply)]
  {
    var w1 := PickProxy(cfg, Tick(w, r.dSend), r.proxyDraw);
    Tick(Note(w1, Sent(kind, token, w1.lastProxy, w1.now, r.reply)), r.dReply)
  }

  /** Classification of the reply, including the pause that a blocked response may ask for. */
  function Judge(cfg: Config, i: nat, w: World, r: Round): (g: (World, Fate))
    ensures Calm(w, g.0)
    ensures g.0.trace == w.trace
    ensures g.1.Finish? ==> !g.1.outcome.Unfinished?
    ensures !g.1.Finish? ==> (g.1.error.Blocked? <==> g.1.Handle?)
  {
    match r.reply
    case Lost(text) => (w, Again(Other(text)))
    case Response(status, retryAfter, body) =>
      if status in cfg.blocked then
        if retryAfter > 0 && i < cfg.retryMax - 1 then
          var (w1, cut) := Sleep(w, retryAfter * SECOND, r.retryCut, r.dRetryAfter);
          (w1, if cut then Finish(Failed(Cancelled)) else Handle(Blocked(status, "status", i + 1)))
        else (w, Handle(Blocked(status, "status", i + 1)))
      else if 200 <= status < 300 then
        if body.flagged then (w, Handle(Blocked(status, "body", i + 1)))
        else (w, Finish(Done(body)))
      else if status == 429 || status >= 500 then (w, Again(HttpStatus(status)))
      else (w, Finish(Failed(HttpStatus(status))))
  }

  /// The subsystems that hear of an outcome

  /** Only subsystems changed. */
  predicate Aside(w: World, w': World) {
    && w'.now == w.now && w'.script == w.script && w'.trace == w.trace
    && w'.lastProxy == w.lastProxy && |w'.health| == |w.health|
  }

  function TellLimiter(ab: AntiBot, op: RateLimiter.Op, w: World): (w': World)
    ensures Aside(w, w')
  {
    if ab.limiter.Some? then w.(limiter := RateLimiter.Step(ab.limiter.value, w.limiter, op)) else w
  }

  function TellBreaker(ab: AntiBot, op: Breaker.Op, attempt: nat, w: World): (w': World)
    ensures Aside(w, w')
  {
    match ab.breaker
    case None => w
    case Some(p) =>
      var s := Breaker.Step(p, w.breaker, op);
      var reports := if op.Block? then s.consecutive >= p.threshold && !Breaker.Open(w.breaker, op.checked)
                     else Breaker.Open(w.breaker, op.at);
      var w1 := w.(breaker := s);
      if reports then Report(w1, if op.Block? then ThresholdReached else SuccessReset, attempt, p, s) else w1
  }

  function TellProxy(ab: AntiBot, failed: Option<Instant>, w: World): (w': World)
    ensures Aside(w, w')
  {
    if ab.proxied && w.lastProxy.Some? && w.lastProxy.value < |w.health| then
      var p := w.lastProxy.value;
      w.(health := w.health[p := if failed.Some? then Proxies.FailedAt(w.health[p], failed.value)
                                 else Proxies.Succeeded(w.health[p])])
    else w
  }

  /** All three hear of the outcome, in this order. */
  function Tell(ab: AntiBot, pace: RateLimiter.Op, op: Breaker.Op, failed: Option<Instant>, attempt: nat, w: World)
    : (w': World)
    ensures Aside(w, w') && w'.cache == w.cache && w'.ua == w.ua
  {
    TellProxy(ab, failed, TellBreaker(ab, op, attempt, TellLimiter(ab, pace, w)))
  }

  /** The token cache and the session may be thrown away on a block. */
  function Forget(ab: AntiBot, w: World): (w': World)
    ensures Aside(w, w')
  {
    var w1 := if ab.vqdInvalidate then w.(cache := map[]) else w;
    if ab.sessionInvalidate && ab.warmupTTL.Some? then w1.(warmed := false) else w1
  }

  /** The anti-bot bookkeeping of a clean response. */
  function Reward(cfg: Config, kind: Request, i: nat, w: World, r: Round): (w': World)
    ensures Continues(w, w') && w'.script == w.script
    ensures w'.trace == w.trace + [Clean(kind, i + 1, w.lastProxy, w.now + r.dRecord)]
    ensures w'.cache == w.cache && w'.ua == w.ua
  {
    hide Tell;
    var at := w.now + r.dRecord;
    var w1 := Tell(cfg.antiBot, RateLimiter.OnSuccess, Breaker.Success(at), None, i + 1, w.(now := at));
    Note(w1, Clean(kind, i + 1, w.lastProxy, at))
  }

  /** The anti-bot bookkeeping of a blocked response. */
  function Punish(cfg: Config, kind: Request, i: nat, w: World, r: Round): (w': World)
    ensures Continues(w, w') && w'.script == w.script
    ensures w'.trace == w.trace + [BlockEvent(kind, i, w, r)] && w'.ua == w.ua
  {
    hide Tell;
    var e := BlockEvent(kind, i, w, r);
    var w1 := Tell(cfg.antiBot, RateLimiter.OnBlock, Breaker.Block(e.checked, e.stamped), Some(e.failed), i + 1,
                   w.(now := e.failed));
    Note(Forget(cfg.antiBot, w1).(onBlocked := w.onBlocked + [BlockedCall(kind, i + 1)]), e)
  }

  function BlockEvent(kind: Request, i: nat, w: World, r: Round): (e: Event)
    ensures e.Block? && w.now <= e.checked <= e.stamped <= e.failed
  {
    var checked := w.now + r.dRecord;
    var stamped := checked + r.dStamp;
    Block(kind, i + 1, w.lastProxy, checked, stamped, stamped + r.dFail)
  }

  /** The challenge solvers; true means that the iteration is not counted. */
  function Challenge(cfg: Config, w: World, r: Round): (g: (World, bool))
    ensures Continues(w, g.0) && g.0.script == w.script
    ensures g.0.breaker == w.breaker && g.0.cache == w.cache
    ensures g.1 <==> cfg.antiBot.solving && Solver.Outcome(r.answers).Solved?
    ensures if g.1 then g.0.trace == w.trace + [Solved(Solver.Outcome(r.answers).solution.ua)]
            else g.0.trace == w.trace && g.0.ua == w.ua
  {
    if !cfg.antiBot.solving then (w, false)
    else
      var w1 := Tick(w, r.dSolve);
      match Solver.Outcome(r.answers)
      case Solved(solution) =>
        (Note(if solution.ua != "" then w1.(ua := solution.ua) else w1, Solved(solution.ua)), true)
      case _ => (w1, false)
  }

  function Pause(cfg: Config, i: nat, r: Round): int {
    Backoff.Delay(cfg.baseDelay, i, Backoff.Factor(cfg.jitterFrac, r.u), cfg.saturates)
  }

  /** The pause between two counted attempts; true means that the context was cancelled. */
  function Rest(cfg: Config, kind: Request, i: nat, w: World, r: Round): (g: (World, bool))
    ensures Calm(w, g.0)
    ensures var d := Pause(cfg, i, r);
            g.0.trace == if d <= 0 then w.trace else w.trace + [Slept(kind, i, d)]
  {
    var d := Pause(cfg, i, r);
    if d <= 0 then (w, false) else Sleep(Note(w, Slept(kind, i, d)), d, r.sleepCut, r.dSleep)
  }

  /// The loop and the token fetch nested in it

  /** The retry loop from attempt `i` on. */
  function Loop(cfg: Config, kind: Request, i: nat, w: World): (run: Run<Body>)
    requires i < cfg.retryMax
    ensures Continues(w, run.w)
    decreases |w.script|, 0
  {
    if w.script == [] then Run(Unfinished, w)
    else
      var r := w.script[0];
      var (w1, open) := Gate(cfg, kind, i, w.(script := w.script[1..]), r);
      if open then Run(Failed(CircuitOpen), w1)
      else
        var (w2, cut) := Pace(cfg, w1, r);
        if cut then Run(Failed(Cancelled), w2)
        else
          var built := Prepare(cfg, kind, w2, r);
          match built.outcome
          case Unfinished => Run(Unfinished, built.w)
          case Failed(e) => Run(Failed(e), built.w)
          case Done(token) => Attempt(cfg, kind, i, token, built.w, r)
  }

  /** Building the request: only a d.js request needs a token. */
  function Prepare(cfg: Config, kind: Request, w: World, r: Round): (run: Run<string>)
    ensures Continues(w, run.w)
    decreases |w.script|, 2
  {
    var run := if kind.Djs? then Fetch(cfg, kind.query, w, r) else Run(Done(""), w);
    if run.outcome.Done? && r.buildFails then Run(Failed(Other("bad request")), run.w) else run
  }

  /** The key under which a query's token is cached. */
  function CacheKey(query: string, ua: string): string {
    query + "|" + ua
  }

  predicate Cached(w: World, key: string) {
    key in w.cache && w.cache[key].value != "" && w.now < w.cache[key].expires
  }

  /** The token of a query: from the cache while it is fresh, else through a retry loop of its own. */
  function Fetch(cfg: Config, query: string, w: World, r: Round): (run: Run<string>)
    ensures Continues(w, run.w)
    decreases |w.script|, 1
  {
    var w1 := Tick(w, r.dLookup);
    var key := CacheKey(query, w1.ua);
    if Cached(w1, key) then
      Run(Done(w1.cache[key].value), Note(w1, CacheHit(key, w1.cache[key].value, w1.now)))
    else
      var run := Loop(cfg, Vqd(query), 0, w1);
      match run.outcome
      case Unfinished => Run(Unfinished, run.w)
      case Failed(e) => Run(Failed(e), run.w)
      case Done(body) =>
        if body.vqd == "" then Run(Failed(NoVqd), run.w)
        else Run(Done(body.vqd), Store(cfg, key, body.vqd, w1.now, run.w))
  }

  /** A token lives from the start of its fetch, not from its end. */
  function Store(cfg: Config, key: string, value: string, start: Instant, w: World): (w': World)
    ensures Continues(w, w') && w'.script == w.script
  {
    Note(w.(cache := w.cache[key := Token(value, start + cfg.vqdTTL)]), Stored(key, value, start))
  }

  /** The part of an iteration that talks to the network, and what follows from it. */
  function Attempt(cfg: Config, kind: Request, i: nat, token: string, w: World, r: Round): (run: Run<Body>)
    requires i < cfg.retryMax
    ensures Continues(w, run.w)
    decreases |w.script|, 2
  {
    var (w1, fate) := Judge(cfg, i, Send(cfg, kind, token, w, r), r);
    match fate
    case Finish(Done(body)) => Run(Done(body), Reward(cfg, kind, i, w1, r))
    case Finish(outcome) => Run(outcome, w1)
    case Again(e) => Recur(cfg, kind, i, e, w1, r)
    case Handle(e) =>
      var (w2, solved) := Challenge(cfg, Punish(cfg, kind, i, w1, r), r);
      if solved then Loop(cfg, kind, i, w2) else Recur(cfg, kind, i, e, w2, r)
  }

  /** The end of a counted iteration. */
  function Recur(cfg: Config, kind: Request, i: nat, e: Error, w: World, r: Round): (run: Run<Body>)
    requires i < cfg.retryMax
    ensures Continues(w, run.w)
    decreases |w.script|, 1
  {
    if i == cfg.retryMax - 1 then Run(Failed(e), w)
    else
      var (w1, cut) := Rest(cfg, kind, i, w, r);
      if cut then Run(Failed(Cancelled), w1) else Loop(cfg, kind, i + 1, w1)
  }

  /// A search

  function SearchDjs(cfg: Config, query: string, offset: int, w: World): (run: Run<seq<Item>>)
    ensures run.w == Loop(cfg, Djs(query, offset), 0, w).w && Continues(w, run.w)
    ensures run.outcome.Done? ==> run.outcome.value != []
  {
    var run := Loop(cfg, Djs(query, offset), 0, w);
    match run.outcome
    case Unfinished => Run(Unfinished, run.w)
    case Failed(e) => Run(Failed(e), run.w)
    case Done(body) =>
      match body.djs
      case Garbled(e) => Run(Failed(e), run.w)
      case Items(items) => Run(if items == [] then Failed(NoResults) else Done(items), run.w)
  }

  function SearchHtml(cfg: Config, query: string, offset: int, w: World): (run: Run<seq<Item>>)
    ensures run.w == Loop(cfg, Html(query, offset), 0, w).w && Continues(w, run.w)
    ensures run.outcome.Done? ==> run.outcome.value != []
  {
    var run := Loop(cfg, Html(query, offset), 0, w);
    match run.outcome
    case Unfinished => Run(Unfinished, run.w)
    case Failed(e) => Run(Failed(e), run.w)
    case Done(body) => Run(if body.html == [] then Failed(NoResults) else Done(body.html), run.w)
  }

  /** The two homepage requests that warm a session up; both go through the transport. */
  function Warmup(cfg: Config, w: World): (run: Run<()>)
    ensures Continues(w, run.w)
  {
    match cfg.antiBot.warmupTTL
    case None => Run(Done(()), w)
    case Some(ttl) =>
      if w.script == [] then Run(Unfinished, w)
      else
        var r := w.script[0];
        var w1 := Tick(w.(script := w.script[1..]), r.dCheck);
        if w1.warmed && w1.now - w1.lastWarmup <= ttl then Run(Done(()), w1)
        else
          var w2 := PickProxy(cfg, Tick(w1, r.dSend), r.proxyDraw);
          var w3 := Tick(Note(w2, WarmupSent(w2.lastProxy, w2.now)), r.dReply);
          if r.reply.Lost? then Run(Done(()), w3)
          else
            var w4 := PickProxy(cfg, w3, r.warmupDraw);
            var w5 := Tick(Note(w4, WarmupSent(w4.lastProxy, w4.now)), r.dRecord);
            Run(Done(()), w5.(warmed := true, lastWarmup := w5.now))
  }

  function Limit(max: int): Positive {
    if max <= 0 then 10 else max
  }

  function Take(items: seq<Item>, max: nat): seq<Item> {
    if |items| > max then items[..max] else items
  }

  /** One search, for a query that is already trimmed. */
  function Search(cfg: Config, query: string, max: int, offset: int, w: World): (run: Run<seq<Item>>)
    ensures Continues(w, run.w)
    ensures run.outcome.Done? ==> 0 < |run.outcome.value| <= Limit(max)
  {
    if query == "" then Run(Failed(Other("query is required")), w)
    else
      var warm := Warmup(cfg, w);
      if warm.outcome.Unfinished? then Run(Unfinished, warm.w)
      else
        var djs := SearchDjs(cfg, query, offset, warm.w);
        match djs.outcome
        case Unfinished => djs
        case Done(items) => Run(Done(Take(items, Limit(max))), djs.w)
        case Failed(e) =>
          if cfg.noFallback then djs
          else
            var html := SearchHtml(cfg, query, offset, djs.w);
            match html.outcome
            case Unfinished => html
            case Failed(fe) => Run(Failed(Wrapped(fe)), html.w)
            case Done(items) => Run(Done(Take(items, Limit(max))), html.w)
  }

  /** Any number of searches by one caller, one after the other. */
  datatype Call = Call(query: string, max: int, offset: int)

  function Searches(cfg: Config, calls: seq<Call>, w: World): (w': World)
    ensures Continues(w, w')
  {
    if calls == [] then w
    else
      var before := Searches(cfg, calls[..|calls| - 1], w);
      var c := calls[|calls| - 1];
      Search(cfg, c.query, c.max, c.offset, before).w
  }
}
