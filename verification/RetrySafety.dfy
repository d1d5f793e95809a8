/** Safety of every run of the client: its one trace determines every subsystem, no request goes out
    while the breaker is open, and no d.js request carries a burned token. */
module RetrySafety {
  import opened Basics
  import Errors
  import opened RetryLoop
  import Backoff
  import Breaker
  import Proxies
  import RateLimiter

  /// What the trace says that each subsystem went through

  function BreakerOp(e: Event): seq<Breaker.Op> {
    match e
    case Block(_, _, _, checked, stamped, _) => [Breaker.Block(checked, stamped)]
    case Clean(_, _, _, at) => [Breaker.Success(at)]
    case _ => []
  }

  function BreakerOps(tr: seq<Event>): seq<Breaker.Op> {
    if tr == [] then [] else BreakerOps(tr[..|tr| - 1]) + BreakerOp(tr[|tr| - 1])
  }

  function LimiterOp(e: Event): seq<RateLimiter.Op> {
    match e
    case Slot(at, z) => [RateLimiter.Wait(at, z)]
    case Block(_, _, _, _, _, _) => [RateLimiter.OnBlock]
    case Clean(_, _, _, _) => [RateLimiter.OnSuccess]
    case _ => []
  }

  function LimiterOps(tr: seq<Event>): seq<RateLimiter.Op> {
    if tr == [] then [] else LimiterOps(tr[..|tr| - 1]) + LimiterOp(tr[|tr| - 1])
  }

  /** The counters of the proxies after a trace, from those at its start: each outcome counts once, for
      the proxy that carried it, and nothing else counts. */
  function HealthAfter(start: seq<Proxies.Vitals>, tr: seq<Event>): (hs: seq<Proxies.Vitals>)
    ensures |hs| == |start|
  {
    if tr == [] then start else HealthStep(HealthAfter(start, tr[..|tr| - 1]), tr[|tr| - 1])
  }

  function HealthStep(hs: seq<Proxies.Vitals>, e: Event): (hs': seq<Proxies.Vitals>)
    ensures |hs'| == |hs|
  {
    match e
    case Block(_, _, Some(p), _, _, failed) => if p < |hs| then hs[p := Proxies.FailedAt(hs[p], failed)] else hs
    case Clean(_, _, Some(p), _) => if p < |hs| then hs[p := Proxies.Succeeded(hs[p])] else hs
    case _ => hs
  }

  /** The calls of the block callback: one per block. */
  function BlockedCalls(tr: seq<Event>): seq<BlockedCall> {
    if tr == [] then []
    else BlockedCalls(tr[..|tr| - 1]) + BlockedCallOf(tr[|tr| - 1])
  }

  function BlockedCallOf(e: Event): seq<BlockedCall> {
    if e.Block? then [BlockedCall(e.kind, e.attempt)] else []
  }

  /** The calls of the circuit callback: one per fail-fast, one per opening report and one per closing
      report of the breaker's history. */
  function CircuitCallsAt(p: Breaker.Policy, before: seq<Event>, e: Event): seq<CircuitCall> {
    var h := BreakerOps(before);
    var s := Breaker.Replay(p, h + BreakerOp(e));
    var snap := Breaker.Snapshot(p, s.consecutive, s.openUntil);
    match e
    case Rejected(_, attempt, _) => [CircuitCall(FailFast, attempt, snap)]
    case Block(_, attempt, _, checked, stamped, _) =>
      if Breaker.OpensAt(p, h, Breaker.Block(checked, stamped)) then [CircuitCall(ThresholdReached, attempt, snap)]
      else []
    case Clean(_, attempt, _, at) =>
      if Breaker.ClosesAt(p, h, Breaker.Success(at)) then [CircuitCall(SuccessReset, attempt, snap)] else []
    case _ => []
  }

  function CircuitCalls(p: Breaker.Policy, tr: seq<Event>): seq<CircuitCall> {
    if tr == [] then []
    else CircuitCalls(p, tr[..|tr| - 1]) + CircuitCallsAt(p, tr[..|tr| - 1], tr[|tr| - 1])
  }

  function BreakerAfter(p: Breaker.Policy, tr: seq<Event>): Breaker.State {
    Breaker.Replay(p, BreakerOps(tr))
  }

  function LimiterAfter(r: RateLimiter.Range, tr: seq<Event>): RateLimiter.State {
    RateLimiter.Replay(r, LimiterOps(tr))
  }

  lemma BreakerAppend(p: Breaker.Policy, tr: seq<Event>, e: Event)
    ensures BreakerOps(tr + [e]) == BreakerOps(tr) + BreakerOp(e)
    ensures BreakerAfter(p, tr + [e])
            == if BreakerOp(e) == [] then BreakerAfter(p, tr)
               else Breaker.Step(p, BreakerAfter(p, tr), BreakerOp(e)[0])
  {
    assert (tr + [e])[..|tr|] == tr;
    var h := BreakerOps(tr);
    if BreakerOp(e) == [] {
      assert h + [] == h;
    } else {
      Breaker.ReplayAppend(p, h, BreakerOp(e)[0]);
    }
  }

  lemma LimiterAppend(r: RateLimiter.Range, tr: seq<Event>, e: Event)
    ensures LimiterOps(tr + [e]) == LimiterOps(tr) + LimiterOp(e)
    ensures LimiterAfter(r, tr + [e])
            == if LimiterOp(e) == [] then LimiterAfter(r, tr)
               else RateLimiter.Step(r, LimiterAfter(r, tr), LimiterOp(e)[0])
  {
    assert (tr + [e])[..|tr|] == tr;
    var h := LimiterOps(tr);
    if LimiterOp(e) == [] {
      assert h + [] == h;
    } else {
      RateLimiter.ReplayAppend(r, h, LimiterOp(e)[0]);
    }
  }

  /** What the circuit callback hears of an event, said of the breaker's fields before and after. */
  function CallsOf(p: Breaker.Policy, s: Breaker.State, s': Breaker.State, e: Event): seq<CircuitCall> {
    match e
    case Rejected(_, attempt, _) => [CircuitCall(FailFast, attempt, Snap(p, s'))]
    case Block(_, attempt, _, checked, _, _) =>
      if s'.consecutive >= p.threshold && !Breaker.Open(s, checked)
      then [CircuitCall(ThresholdReached, attempt, Snap(p, s'))] else []
    case Clean(_, attempt, _, at) =>
      if Breaker.Open(s, at) then [CircuitCall(SuccessReset, attempt, Snap(p, s'))] else []
    case _ => []
  }

  function Snap(p: Breaker.Policy, s: Breaker.State): Breaker.Snapshot {
    Breaker.Snapshot(p, s.consecutive, s.openUntil)
  }

  lemma CallsAppend(p: Breaker.Policy, tr: seq<Event>, e: Event)
    ensures CircuitCalls(p, tr + [e])
            == CircuitCalls(p, tr) + CallsOf(p, BreakerAfter(p, tr), BreakerAfter(p, tr + [e]), e)
  {
    assert (tr + [e])[..|tr|] == tr;
    BreakerAppend(p, tr, e);
    Breaker.RefinesHistory(p, BreakerOps(tr));
  }

  lemma HealthAppend(start: seq<Proxies.Vitals>, tr: seq<Event>, e: Event)
    ensures HealthAfter(start, tr + [e]) == HealthStep(HealthAfter(start, tr), e)
    ensures BlockedCalls(tr + [e]) == BlockedCalls(tr) + BlockedCallOf(e)
  {
    assert (tr + [e])[..|tr|] == tr;
  }

  /// The first invariant: every subsystem is a fold of the trace

  predicate BreakerAgrees(cfg: Config, w: World) {
    match cfg.antiBot.breaker
    case Some(p) => w.breaker == BreakerAfter(p, w.trace) && w.onCircuit == CircuitCalls(p, w.trace)
    case None => w.onCircuit == []
  }

  predicate LimiterAgrees(cfg: Config, w: World) {
    match cfg.antiBot.limiter
    case Some(r) => w.limiter == LimiterAfter(r, w.trace)
    case None => true
  }

  predicate HealthAgrees(cfg: Config, w: World) {
    && (cfg.antiBot.proxied ==> w.health == HealthAfter(cfg.health, w.trace))
    && w.onBlocked == BlockedCalls(w.trace)
  }

  predicate Agrees(cfg: Config, w: World) {
    BreakerAgrees(cfg, w) && LimiterAgrees(cfg, w) && HealthAgrees(cfg, w)
  }

  function Plus<T>(s: seq<T>, t: seq<T>): (st: seq<T>)
    ensures st == s + t
  {
    if t == [] then s else s + t
  }

  /** The fields moved from `w` to `w'` as the event says, and the event was appended. */
  predicate Moved(cfg: Config, w: World, w': World, e: Event) {
    var ab := cfg.antiBot;
    && w'.trace == w.trace + [e]
    && (ab.breaker.Some? ==>
          var p := ab.breaker.value;
          && w'.breaker == (if BreakerOp(e) == [] then w.breaker else Breaker.Step(p, w.breaker, BreakerOp(e)[0]))
          && w'.onCircuit == Plus(w.onCircuit, CallsOf(p, w.breaker, w'.breaker, e)))
    && (ab.breaker.None? ==> w'.onCircuit == w.onCircuit)
    && (ab.limiter.Some? ==>
          w'.limiter == if LimiterOp(e) == [] then w.limiter
                        else RateLimiter.Step(ab.limiter.value, w.limiter, LimiterOp(e)[0]))
    && (ab.proxied ==> w'.health == HealthStep(w.health, e))
    && w'.onBlocked == Plus(w.onBlocked, BlockedCallOf(e))
    && w'.lastTurn == if e.Turn? then e.at else w.lastTurn
  }

  lemma NoteAgrees(cfg: Config, w: World, w': World, e: Event)
    requires Agrees(cfg, w) && Moved(cfg, w, w', e)
    ensures Agrees(cfg, w')
  {
    if cfg.antiBot.breaker.Some? {
      BreakerAppend(cfg.antiBot.breaker.value, w.trace, e);
      CallsAppend(cfg.antiBot.breaker.value, w.trace, e);
    }
    if cfg.antiBot.limiter.Some? {
      LimiterAppend(cfg.antiBot.limiter.value, w.trace, e);
    }
    HealthAppend(cfg.health, w.trace, e);
  }

  lemma GateMoves(cfg: Config, kind: Request, i: nat, w: World, r: Round)
    ensures var (w', open) := Gate(cfg, kind, i, w, r);
            if open then Moved(cfg, w, w', Rejected(kind, i + 1, w'.now))
            else w' == w.(now := w'.now) && Shut(cfg, w')
  {
  }

  lemma SlotMoves(cfg: Config, range: RateLimiter.Range, w: World, r: Round)
    requires cfg.antiBot.limiter == Some(range)
    ensures Moved(cfg, w, TakeSlot(range, w, r).0, Slot(w.now, r.z))
  {
  }

  lemma TurnMoves(cfg: Config, minGap: Positive, w: World, r: Round)
    requires cfg.antiBot.limiter == None
    ensures var w' := TakeTurn(minGap, w, r).0;
            w'.(now := w.now) == w || Moved(cfg, w, w', Turn(w'.now))
  {
  }

  lemma TellMoves(cfg: Config, w: World, e: Event, failed: Option<Instant>, pace: RateLimiter.Op, op: Breaker.Op)
    requires match e
             case Block(_, _, proxy, _, _, f) => failed == Some(f) && proxy == w.lastProxy
             case Clean(_, _, proxy, _) => failed == None && proxy == w.lastProxy
             case _ => false
    requires LimiterOp(e) == [pace] && BreakerOp(e) == [op]
    ensures var ab, w' := cfg.antiBot, Tell(cfg.antiBot, pace, op, failed, e.attempt, w);
            && Moved(cfg, w, w'.(onBlocked := Plus(w.onBlocked, BlockedCallOf(e)), trace := w.trace + [e]), e)
            && w'.onBlocked == w.onBlocked
  {
    var ab := cfg.antiBot;
    var w2 := TellLimiter(ab, pace, w);
    assert w2 == w.(limiter := w2.limiter);
    var w3 := TellBreaker(ab, op, e.attempt, w2);
    assert w3 == w2.(breaker := w3.breaker, onCircuit := w3.onCircuit);
    var w4 := TellProxy(ab, failed, w3);
    assert w4 == w3.(health := w4.health);
  }

  lemma RewardMoves(cfg: Config, kind: Request, i: nat, w: World, r: Round)
    ensures Moved(cfg, w, Reward(cfg, kind, i, w, r), Clean(kind, i + 1, w.lastProxy, w.now + r.dRecord))
  {
    var at := w.now + r.dRecord;
    TellMoves(cfg, w.(now := at), Clean(kind, i + 1, w.lastProxy, at), None, RateLimiter.OnSuccess,
              Breaker.Success(at));
  }

  lemma PunishMoves(cfg: Config, kind: Request, i: nat, w: World, r: Round)
    ensures Moved(cfg, w, Punish(cfg, kind, i, w, r), BlockEvent(kind, i, w, r))
  {
    hide Moved, Tell, Forget;
    var e := BlockEvent(kind, i, w, r);
    var w1 := w.(now := e.failed);
    TellMoves(cfg, w1, e, Some(e.failed), RateLimiter.OnBlock, Breaker.Block(e.checked, e.stamped));
    var w2 := Tell(cfg.antiBot, RateLimiter.OnBlock, Breaker.Block(e.checked, e.stamped), Some(e.failed), i + 1, w1);
    ForgetMoves(cfg, w1, w2, e);
    LaterMoves(cfg, w, w1, Punish(cfg, kind, i, w, r), e);
  }

  lemma LaterMoves(cfg: Config, w: World, w1: World, w': World, e: Event)
    requires w1 == w.(now := w1.now) && Moved(cfg, w1, w', e)
    ensures Moved(cfg, w, w', e)
  {
  }

  lemma ForgetMoves(cfg: Config, w: World, w': World, e: Event)
    requires Moved(cfg, w, w'.(onBlocked := Plus(w.onBlocked, BlockedCallOf(e)), trace := w.trace + [e]), e)
    requires w'.trace == w.trace
    ensures Moved(cfg, w, Note(Forget(cfg.antiBot, w').(onBlocked := Plus(w.onBlocked, BlockedCallOf(e))), e), e)
  {
  }

  /// The second invariant: the clock is in order

  predicate DoneBefore(h: seq<Breaker.Op>, now: int) {
    forall k :: 0 <= k < |h| ==> h[k].Ended() <= now
  }

  predicate Timely(w: World) {
    && Breaker.ClockOrdered(BreakerOps(w.trace)) && DoneBefore(BreakerOps(w.trace), w.now)
    && RateLimiter.ReadBefore(LimiterOps(w.trace), w.now)
  }

  /** The times of an event lie between two instants, in order. */
  predicate Between(lo: int, e: Event, hi: int) {
    match e
    case Block(_, _, _, checked, stamped, _) => lo <= checked <= stamped <= hi
    case Clean(_, _, _, at) => lo <= at <= hi
    case Slot(at, _) => lo <= at <= hi
    case Sent(_, _, _, at, _) => lo <= at <= hi
    case _ => true
  }

  lemma NoteTimely(w: World, w': World, e: Event)
    requires Timely(w) && w'.trace == w.trace + [e] && w.now <= w'.now && Between(w.now, e, w'.now)
    ensures Timely(w')
  {
    hide BreakerOps, LimiterOps, BreakerAfter, LimiterAfter;
    BreakerAppend(Breaker.Normalized(0, 0), w.trace, e);
    LimiterAppend(RateLimiter.Range(1, 1), w.trace, e);
  }

  /// The third invariant: what is sent, and with which token

  /** A key under which a token of this query may be cached. A client without solvers keeps the
      user-agent that it was made with. */
  predicate KeyFor(cfg: Config, query: string, key: string) {
    query + "|" <= key && (!cfg.antiBot.solving ==> key == CacheKey(query, cfg.ua))
  }

  predicate NoBlockSince(tr: seq<Event>, j: int) {
    forall k :: j <= k < |tr| && 0 <= k ==> !tr[k].Block?
  }

  /** A request whose response had this body. */
  predicate Brought(e: Event, kind: Request, body: Body) {
    e.Sent? && e.kind == kind && e.reply.Response? && e.reply.body == body
  }

  /** A token request whose response had this token. */
  predicate BroughtToken(e: Event, token: string) {
    e.Sent? && e.kind.Vqd? && e.reply.Response? && e.reply.body.vqd == token
  }

  /** At `j` the trace stored this token, straight after the clean response to a token request, which
      had the token; with invalidation on, no block was handled since that response. */
  predicate IssuedAt(cfg: Config, tr: seq<Event>, j: nat, key: string, token: string) {
    && 1 < j < |tr|
    && tr[j].Stored? && tr[j].key == key && tr[j].token == token
    && tr[j - 1].Clean? && tr[j - 1].kind.Vqd? && KeyFor(cfg, tr[j - 1].kind.query, key)
    && BroughtToken(tr[j - 2], token) && tr[j].start <= tr[j - 2].at
    && (cfg.antiBot.vqdInvalidate ==> NoBlockSince(tr, j - 1))
  }

  /** The token was stored by the very last event, or found in the cache by it before it expired. */
  predicate JustFound(cfg: Config, tr: seq<Event>, j: nat)
    requires j < |tr| && tr[j].Stored?
  {
    var last := tr[|tr| - 1];
    || j == |tr| - 1
    || (last.CacheHit? && last.key == tr[j].key && last.token == tr[j].token
        && last.at < tr[j].start + cfg.vqdTTL)
  }

  /** What must hold of the trace before a d.js request for `query` carries `token`. */
  predicate TokenOk(cfg: Config, before: seq<Event>, query: string, token: string) {
    exists j: nat {:trigger before[j]} ::
      j < |before| && before[j].Stored? && KeyFor(cfg, query, before[j].key)
      && IssuedAt(cfg, before, j, before[j].key, token) && JustFound(cfg, before, j)
  }

  /** What must hold of the trace before a request goes out. */
  predicate SendOk(cfg: Config, before: seq<Event>, e: Event)
    requires e.Sent?
  {
    && (cfg.antiBot.breaker.Some? ==> !Breaker.OpenByHistory(cfg.antiBot.breaker.value, BreakerOps(before), e.at))
    && (e.kind.Djs? ==> TokenOk(cfg, before, e.kind.query, e.token))
    && RouteOk(cfg, before, e)
    && TurnOk(cfg, before, LastSlot(cfg, before), e.kind, e.at)
  }

  /** The slot that the limiter reserved last. */
  function LastSlot(cfg: Config, tr: seq<Event>): nat {
    if cfg.antiBot.limiter.Some? then LimiterAfter(cfg.antiBot.limiter.value, tr).lastReq else ZERO_TIME
  }

  /** Does this client limit its own rate? */
  predicate Paced(cfg: Config) {
    cfg.antiBot.limiter.Some? || cfg.minGap > 0
  }

  /** This event is the turn that was just taken, or the reservation of a slot that has come. */
  predicate TurnAt(cfg: Config, e: Event, slot: nat, at: int) {
    if cfg.antiBot.limiter.Some? then e.Slot? && slot <= at else e.Turn? && e.at <= at
  }

  /** A request of a client that limits its rate has just taken its turn, or waited for its slot. A d.js
      request has done so before it looked for its token; one that had to fetch the token first goes
      out straight after the fetch. */
  predicate TurnOk(cfg: Config, before: seq<Event>, slot: nat, kind: Request, at: int) {
    Paced(cfg) ==>
      var n := |before|;
      if kind.Djs? then
        n > 0 && before[n - 1].CacheHit? ==> n > 1 && TurnAt(cfg, before[n - 2], slot, at)
      else
        n > 0 && TurnAt(cfg, before[n - 1], slot, at)
  }

  /** Any request, also to the homepage, goes out by a lawful route. */
  predicate RouteOk(cfg: Config, before: seq<Event>, e: Event)
    requires e.Sent? || e.WarmupSent?
  {
    cfg.antiBot.proxied ==> ProxyOk(cfg.proxies, HealthAfter(cfg.health, before), e.proxy, e.at)
  }

  /** What must hold of the trace before any event. */
  predicate Lawful(cfg: Config, before: seq<Event>, e: Event) {
    (e.Sent? ==> SendOk(cfg, before, e)) && (e.WarmupSent? ==> RouteOk(cfg, before, e))
  }

  /** A request goes through a proxy that is not in cooldown by the outcomes so far; it goes out
      directly only when all of them are, provided that no draw is by negative weights. */
  predicate ProxyOk(plan: Proxies.Plan, hs: seq<Proxies.Vitals>, proxy: Option<nat>, at: Instant) {
    && (proxy.Some? ==> proxy.value < |hs| && Proxies.Usable(plan.rules, hs[proxy.value], at))
    && (proxy.None? && plan.Drawable() ==>
          forall p: nat :: p < |hs| ==> !Proxies.Usable(plan.rules, hs[p], at))
  }

  predicate Sends(cfg: Config, tr: seq<Event>) {
    forall k :: 0 <= k < |tr| ==> Lawful(cfg, tr[..k], tr[k])
  }

  predicate Backed(cfg: Config, tr: seq<Event>, key: string, t: Token) {
    && t.value != ""
    && exists j: nat {:trigger tr[j]} ::
         j < |tr| && IssuedAt(cfg, tr, j, key, t.value) && tr[j].start + cfg.vqdTTL == t.expires
  }

  predicate CacheSound(cfg: Config, w: World) {
    forall key :: key in w.cache ==> Backed(cfg, w.trace, key, w.cache[key])
  }

  /// The fourth invariant: what follows what

  predicate BlockedReply(cfg: Config, reply: Reply) {
    reply.Response? && (reply.status in cfg.blocked || (200 <= reply.status < 300 && reply.body.flagged))
  }

  predicate CleanReply(cfg: Config, reply: Reply) {
    reply.Response? && reply.status !in cfg.blocked && 200 <= reply.status < 300 && !reply.body.flagged
  }

  /** A reply with a blocked status may ask for a pause. */
  predicate AsksForPause(cfg: Config, reply: Reply) {
    reply.Response? && reply.status in cfg.blocked && reply.retryAfter > 0
  }

  /** A reply that must be acted upon at once: a clean one, or a blocked one that asks for no pause. */
  predicate Urgent(cfg: Config, reply: Reply) {
    CleanReply(cfg, reply) || (BlockedReply(cfg, reply) && !AsksForPause(cfg, reply))
  }

  /** An outcome straight after the request that it is the outcome of: a block after a blocked reply, a
      success after a clean one, charged to the proxy that carried the request. */
  predicate Follows(cfg: Config, before: seq<Event>, e: Event)
    requires e.Block? || e.Clean?
  {
    && before != []
    && var last := before[|before| - 1];
       && last.Sent? && last.kind == e.kind && last.proxy == e.proxy
       && if e.Block? then BlockedReply(cfg, last.reply) else CleanReply(cfg, last.reply)
  }

  predicate Paired(cfg: Config, tr: seq<Event>) {
    forall k :: 0 <= k < |tr| && (tr[k].Block? || tr[k].Clean?) ==> Follows(cfg, tr[..k], tr[k])
  }

  /** Nothing but its outcome comes after an urgent reply. */
  predicate Heeds(cfg: Config, before: seq<Event>, e: Event) {
    Quiet(cfg, before) || e.Block? || e.Clean?
  }

  predicate AllHeeded(cfg: Config, tr: seq<Event>) {
    forall k :: 0 <= k < |tr| ==> Heeds(cfg, tr[..k], tr[k])
  }

  /** No urgent reply is waiting. */
  predicate Quiet(cfg: Config, tr: seq<Event>) {
    tr != [] && tr[|tr| - 1].Sent? ==> !Urgent(cfg, tr[|tr| - 1].reply)
  }

  /** A token stored straight after the clean response that brought it, under a key of its query; its
      life began before the request went out. */
  predicate Issued(cfg: Config, before: seq<Event>, e: Event)
    requires e.Stored?
  {
    && |before| > 1
    && BroughtToken(before[|before| - 2], e.token) && e.start <= before[|before| - 2].at
    && var last := before[|before| - 1];
       last.Clean? && last.kind.Vqd? && KeyFor(cfg, last.kind.query, e.key)
  }

  predicate AllIssued(cfg: Config, tr: seq<Event>) {
    forall k :: 0 <= k < |tr| && tr[k].Stored? ==> Issued(cfg, tr[..k], tr[k])
  }

  /** How long a pause is: the base delay doubled once per attempt, within the jitter. */
  predicate PauseOk(cfg: Config, exponent: nat, d: int) {
    && d > 0
    && var base, jitter := cfg.baseDelay, cfg.jitterFrac;
       jitter >= 0.0 && Backoff.Longest(base, exponent, jitter) < Backoff.TWO_63 as real ==>
         Backoff.Shortest(base, exponent, jitter) - 1.0 < d as real <= Backoff.Longest(base, exponent, jitter)
  }

  /** A pause comes straight after a request of the same kind that failed, or after the block that it was. */
  predicate PausesAfter(cfg: Config, before: seq<Event>, e: Event)
    requires e.Slept?
  {
    && PauseOk(cfg, e.exponent, e.d)
    && Tried(before, e.kind)
  }

  predicate Tried(tr: seq<Event>, kind: Request) {
    && tr != []
    && var last := tr[|tr| - 1];
       (last.Sent? || last.Block?) && last.kind == kind
  }

  predicate AllPaused(cfg: Config, tr: seq<Event>) {
    forall k :: 0 <= k < |tr| && tr[k].Slept? ==> PausesAfter(cfg, tr[..k], tr[k])
  }

  /** When a trace took its last turn; the zero time if it took none. */
  function LastTurn(tr: seq<Event>): nat {
    if tr == [] then ZERO_TIME
    else if tr[|tr| - 1].Turn? then tr[|tr| - 1].at
    else LastTurn(tr[..|tr| - 1])
  }

  /** This turn keeps the gap to the last one. */
  predicate InTurn(gap: int, lastTurn: nat, e: Event)
    requires e.Turn?
  {
    lastTurn == ZERO_TIME || e.at >= lastTurn + gap
  }

  predicate TurnsSpaced(gap: int, tr: seq<Event>) {
    forall k :: 0 <= k < |tr| && tr[k].Turn? ==> InTurn(gap, LastTurn(tr[..k]), tr[k])
  }

  predicate InOrder(cfg: Config, w: World) {
    && Paired(cfg, w.trace) && AllHeeded(cfg, w.trace) && AllIssued(cfg, w.trace) && AllPaused(cfg, w.trace)
    && w.lastTurn == LastTurn(w.trace) && TurnsSpaced(cfg.minGap, w.trace)
  }

  lemma NoteInOrder(cfg: Config, w: World, w': World, e: Event)
    requires InOrder(cfg, w) && w'.trace == w.trace + [e]
    requires w'.lastTurn == if e.Turn? then e.at else w.lastTurn
    requires e.Block? || e.Clean? ==> Follows(cfg, w.trace, e)
    requires e.Stored? ==> Issued(cfg, w.trace, e)
    requires e.Turn? ==> InTurn(cfg.minGap, w.lastTurn, e)
    requires Heeds(cfg, w.trace, e)
    requires e.Slept? ==> PausesAfter(cfg, w.trace, e)
    ensures InOrder(cfg, w')
  {
    hide Follows, Issued, InTurn, Heeds, PausesAfter;
    var n, tr := |w.trace|, w'.trace;
    assert tr[..n] == w.trace && tr[n] == e;
    forall k | 0 <= k < |tr| && (tr[k].Block? || tr[k].Clean?) ensures Follows(cfg, tr[..k], tr[k]) {
      assert k < n ==> tr[..k] == w.trace[..k];
    }
    forall k | 0 <= k < |tr| ensures Heeds(cfg, tr[..k], tr[k]) {
      assert k < n ==> tr[..k] == w.trace[..k];
    }
    forall k | 0 <= k < |tr| && tr[k].Stored? ensures Issued(cfg, tr[..k], tr[k]) {
      assert k < n ==> tr[..k] == w.trace[..k];
    }
    forall k | 0 <= k < |tr| && tr[k].Slept? ensures PausesAfter(cfg, tr[..k], tr[k]) {
      assert k < n ==> tr[..k] == w.trace[..k];
    }
    forall k | 0 <= k < |tr| && tr[k].Turn? ensures InTurn(cfg.minGap, LastTurn(tr[..k]), tr[k]) {
      assert k < n ==> tr[..k] == w.trace[..k];
    }
  }

  /// All invariants

  predicate OneAgent(cfg: Config, w: World) {
    !cfg.antiBot.solving ==> w.ua == cfg.ua
  }

  /** What holds at every moment. */
  predicate Sound(cfg: Config, w: World) {
    Agrees(cfg, w) && Timely(w) && CacheSound(cfg, w) && Sends(cfg, w.trace) && InOrder(cfg, w) && OneAgent(cfg, w)
  }

  /** What holds whenever no reply is being handled. */
  predicate Safe(cfg: Config, w: World) {
    Sound(cfg, w) && Quiet(cfg, w.trace)
  }

  lemma NoteSends(cfg: Config, tr: seq<Event>, e: Event)
    requires Sends(cfg, tr) && Lawful(cfg, tr, e)
    ensures Sends(cfg, tr + [e])
  {
    hide Lawful;
    forall k | 0 <= k < |tr + [e]| ensures Lawful(cfg, (tr + [e])[..k], (tr + [e])[k]) {
      assert (tr + [e])[..k] == tr[..k] || k == |tr|;
      assert (tr + [e])[..|tr|] == tr;
    }
  }

  lemma NoteBacked(cfg: Config, tr: seq<Event>, e: Event, key: string, t: Token)
    requires Backed(cfg, tr, key, t) && (cfg.antiBot.vqdInvalidate ==> !e.Block?)
    ensures Backed(cfg, tr + [e], key, t)
  {
    var j: nat :| j < |tr| && IssuedAt(cfg, tr, j, key, t.value) && tr[j].start + cfg.vqdTTL == t.expires;
    var tr' := tr + [e];
    assert tr'[j] == tr[j] && tr'[j - 1] == tr[j - 1] && tr'[j - 2] == tr[j - 2];
    assert IssuedAt(cfg, tr', j, key, t.value);
  }

  lemma NoteSafe(cfg: Config, w: World, w': World, e: Event)
    requires Safe(cfg, w) || (Sound(cfg, w) && (e.Block? || e.Clean?))
    requires Moved(cfg, w, w', e) && w.now <= w'.now && Between(w.now, e, w'.now)
    requires w'.cache == map[] || (w'.cache == w.cache && (cfg.antiBot.vqdInvalidate ==> !e.Block?))
    requires w'.ua == w.ua || cfg.antiBot.solving
    requires Lawful(cfg, w.trace, e)
    requires e.Block? || e.Clean? ==> Follows(cfg, w.trace, e)
    requires e.Stored? ==> Issued(cfg, w.trace, e)
    requires e.Turn? ==> InTurn(cfg.minGap, w.lastTurn, e)
    requires e.Slept? ==> PausesAfter(cfg, w.trace, e)
    ensures Sound(cfg, w') && (!e.Sent? ==> Safe(cfg, w'))
  {
    hide Follows, Issued, InTurn, PausesAfter, Lawful, Backed;
    NoteAgrees(cfg, w, w', e);
    NoteInOrder(cfg, w, w', e);
    NoteTimely(w, w', e);
    NoteSends(cfg, w.trace, e);
    forall key | key in w'.cache ensures Backed(cfg, w'.trace, key, w'.cache[key]) {
      NoteBacked(cfg, w.trace, e, key, w.cache[key]);
    }
  }

  /** Time passes, and what the invariants do not speak of changes. */
  predicate Later(w: World, w': World) {
    && w.now <= w'.now
    && w' == w.(now := w'.now, script := w'.script, warmed := w'.warmed, lastWarmup := w'.lastWarmup,
                lastProxy := w'.lastProxy)
  }

  lemma LaterSound(cfg: Config, w: World, w': World)
    requires Sound(cfg, w) && Later(w, w')
    ensures Sound(cfg, w')
  {
  }

  lemma LaterSafe(cfg: Config, w: World, w': World)
    requires Safe(cfg, w) && Later(w, w')
    ensures Safe(cfg, w')
  {
    hide Sound;
    LaterSound(cfg, w, w');
  }

  /// Every phase keeps the invariants

  /** No breaker, or a breaker that is not open now; it then stays so as time passes. */
  predicate Shut(cfg: Config, w: World) {
    cfg.antiBot.breaker.Some? ==> !Breaker.Open(w.breaker, w.now)
  }

  lemma GateSafe(cfg: Config, kind: Request, i: nat, w: World, r: Round)
    requires Safe(cfg, w)
    ensures var (w', open) := Gate(cfg, kind, i, w, r);
            Safe(cfg, w') && (!open ==> Shut(cfg, w'))
  {
    hide Safe, Moved;
    var (w', open) := Gate(cfg, kind, i, w, r);
    GateMoves(cfg, kind, i, w, r);
    if open {
      NoteSafe(cfg, w, w', Rejected(kind, i + 1, w'.now));
    } else {
      LaterSafe(cfg, w, w');
    }
  }

  lemma PaceSafe(cfg: Config, w: World, r: Round)
    requires Safe(cfg, w) && Shut(cfg, w)
    ensures Safe(cfg, Pace(cfg, w, r).0) && Shut(cfg, Pace(cfg, w, r).0)
  {
    hide Safe, Moved, TakeSlot, TakeTurn;
    var w1 := Tick(w, r.dTurn);
    LaterSafe(cfg, w, w1);
    match cfg.antiBot.limiter
    case Some(range) =>
      SlotSafe(cfg, range, w1, r);
    case None =>
      if cfg.minGap > 0 {
        TurnSafe(cfg, cfg.minGap, w1, r);
      }
  }

  lemma SlotSafe(cfg: Config, range: RateLimiter.Range, w: World, r: Round)
    requires Safe(cfg, w) && Shut(cfg, w) && cfg.antiBot.limiter == Some(range)
    ensures Safe(cfg, TakeSlot(range, w, r).0) && Shut(cfg, TakeSlot(range, w, r).0)
  {
    hide Safe, Moved;
    SlotMoves(cfg, range, w, r);
    NoteSafe(cfg, w, TakeSlot(range, w, r).0, Slot(w.now, r.z));
  }

  lemma TurnSafe(cfg: Config, minGap: Positive, w: World, r: Round)
    requires Safe(cfg, w) && Shut(cfg, w) && cfg.antiBot.limiter == None && minGap == cfg.minGap
    ensures Safe(cfg, TakeTurn(minGap, w, r).0) && Shut(cfg, TakeTurn(minGap, w, r).0)
  {
    hide Safe, Moved;
    TurnMoves(cfg, minGap, w, r);
    var w' := TakeTurn(minGap, w, r).0;
    if w'.(now := w.now) == w {
      LaterSafe(cfg, w, w');
    } else {
      NoteSafe(cfg, w, w', Turn(w'.now));
    }
  }

  /** The last event is a turn that was taken, or a slot that was waited for. */
  predicate TookTurn(cfg: Config, w: World) {
    Paced(cfg) ==> w.trace != [] && TurnAt(cfg, w.trace[|w.trace| - 1], w.limiter.lastReq, w.now)
  }

  lemma PaceTakesTurn(cfg: Config, w: World, r: Round)
    ensures !Pace(cfg, w, r).1 ==> TookTurn(cfg, Pace(cfg, w, r).0)
  {
  }

  lemma PrepareKeepsTurn(cfg: Config, kind: Request, w: World, r: Round)
    requires TookTurn(cfg, w)
    ensures var run := Prepare(cfg, kind, w, r);
            run.outcome.Done? ==> TurnOk(cfg, run.w.trace, run.w.limiter.lastReq, kind, run.w.now)
  {
    hide Loop;
  }

  lemma SendSafe(cfg: Config, kind: Request, token: string, w: World, r: Round)
    requires Safe(cfg, w) && Shut(cfg, w) && TurnOk(cfg, w.trace, w.limiter.lastReq, kind, w.now)
    requires kind.Djs? ==> TokenOk(cfg, w.trace, kind.query, token)
    ensures Sound(cfg, Send(cfg, kind, token, w, r))
  {
    hide Safe, Sound, TokenOk, Agrees, ProxyOk, TurnOk, LastSlot, HealthAfter;
    SlotByHistory(cfg, w, kind, w.now + r.dSend);
    ShutByHistory(cfg, w, w.now + r.dSend);
    var w' := Send(cfg, kind, token, w, r);
    PickLawful(cfg, w, Tick(w, r.dSend), r.proxyDraw);
    NoteSafe(cfg, w, w', Sent(kind, token, w'.lastProxy, w.now + r.dSend, r.reply));
  }

  lemma PickLawful(cfg: Config, w: World, w1: World, draw: nat)
    requires Safe(cfg, w) && w1 == w.(now := w1.now)
    ensures cfg.antiBot.proxied ==>
              ProxyOk(cfg.proxies, HealthAfter(cfg.health, w.trace), PickProxy(cfg, w1, draw).lastProxy, w1.now)
  {
    hide BreakerAgrees, LimiterAgrees, Timely, CacheSound, Sends, Proxies.PickFrom, Proxies.Usable, HealthAfter;
  }

  lemma ShutByHistory(cfg: Config, w: World, at: Instant)
    requires Safe(cfg, w) && Shut(cfg, w) && w.now <= at
    ensures cfg.antiBot.breaker.Some? ==>
              !Breaker.OpenByHistory(cfg.antiBot.breaker.value, BreakerOps(w.trace), at)
  {
    if cfg.antiBot.breaker.Some? {
      Breaker.RefinesHistory(cfg.antiBot.breaker.value, BreakerOps(w.trace));
    }
  }

  lemma SlotByHistory(cfg: Config, w: World, kind: Request, at: Instant)
    requires Safe(cfg, w) && TurnOk(cfg, w.trace, w.limiter.lastReq, kind, w.now) && w.now <= at
    ensures TurnOk(cfg, w.trace, LastSlot(cfg, w.trace), kind, at)
  {
    hide BreakerAgrees, HealthAgrees, Timely, CacheSound, Sends, InOrder, LimiterAfter;
  }

  lemma JudgeSafe(cfg: Config, i: nat, w: World, r: Round)
    requires Sound(cfg, w)
    ensures Sound(cfg, Judge(cfg, i, w, r).0)
  {
    hide Sound;
    LaterSound(cfg, w, Judge(cfg, i, w, r).0);
  }

  /** The request just went out, through this proxy, and got this reply. */
  predicate JustSent(w: World, kind: Request, reply: Reply) {
    && w.trace != []
    && var last := w.trace[|w.trace| - 1];
       last.Sent? && last.kind == kind && last.proxy == w.lastProxy && last.reply == reply
  }

  lemma SendShape(cfg: Config, kind: Request, token: string, i: nat, w: World, r: Round)
    ensures JustSent(Judge(cfg, i, Send(cfg, kind, token, w, r), r).0, kind, r.reply)
  {
    hide Send;
  }

  /** The reply decides: it is handled exactly when it is a block, unless its pause is cut short; it is a
      success exactly when it is clean; and the loop goes on without more ado exactly after a lost reply
      or a temporary failure that is not a block. */
  lemma ReplyDecides(cfg: Config, i: nat, w: World, r: Round)
    ensures var fate := Judge(cfg, i, w, r).1;
            && (fate.Handle? <==> BlockedReply(cfg, r.reply)
                                  && !(AsksForPause(cfg, r.reply) && i < cfg.retryMax - 1 && r.retryCut))
            && (fate.Finish? && fate.outcome.Done? <==> CleanReply(cfg, r.reply))
            && (fate.Again? <==> r.reply.Lost? || (!BlockedReply(cfg, r.reply)
                                                   && (r.reply.status == 429 || r.reply.status >= 500)))
  {
  }

  /** What an attempt fails with when it got this reply. */
  predicate Tells(cfg: Config, attempt: nat, reply: Reply, e: Errors.Error) {
    match e
    case Other(text) => reply == Lost(text)
    case HttpStatus(status) => reply.Response? && reply.status == status && !BlockedReply(cfg, reply)
    case Blocked(status, detector, n) =>
      && BlockedReply(cfg, reply) && reply.status == status && n == attempt
      && detector == if status in cfg.blocked then "status" else "body"
    case _ => false
  }

  /** The error is that of the reply, unless the pause it asks for is cut short; a clean reply gives its
      body. The pause is all the time that passes. */
  lemma ReplyTells(cfg: Config, i: nat, w: World, r: Round)
    ensures var (w', fate) := Judge(cfg, i, w, r);
            var pauses := AsksForPause(cfg, r.reply) && i < cfg.retryMax - 1;
            && (fate.Handle? || fate.Again? ==> Tells(cfg, i + 1, r.reply, fate.error))
            && (fate.Finish? && fate.outcome.Failed? ==>
                  if pauses then fate.outcome.error == Errors.Cancelled
                  else Tells(cfg, i + 1, r.reply, fate.outcome.error))
            && (fate.Finish? && fate.outcome.Done? ==> r.reply.Response? && fate.outcome.value == r.reply.body)
            && w' == w.(now := w.now + if !pauses then 0
                                       else r.dRetryAfter + if r.retryCut then 0 else r.reply.retryAfter * SECOND)
  {
  }

  lemma IdleSafe(cfg: Config, w: World, kind: Request, reply: Reply)
    requires Sound(cfg, w) && JustSent(w, kind, reply) && !Urgent(cfg, reply)
    ensures Safe(cfg, w)
  {
    hide Sound;
  }

  lemma RewardSafe(cfg: Config, kind: Request, i: nat, w: World, r: Round)
    requires Sound(cfg, w) && JustSent(w, kind, r.reply) && CleanReply(cfg, r.reply)
    ensures var w' := Reward(cfg, kind, i, w, r);
            Safe(cfg, w') && Shut(cfg, w') && EndsClean(w', kind, r.reply.body)
  {
    hide Sound, Safe, Moved;
    RewardMoves(cfg, kind, i, w, r);
    RewardShape(cfg, kind, i, w, r);
    hide Reward;
    NoteSafe(cfg, w, Reward(cfg, kind, i, w, r), Clean(kind, i + 1, w.lastProxy, w.now + r.dRecord));
  }

  lemma RewardShape(cfg: Config, kind: Request, i: nat, w: World, r: Round)
    requires JustSent(w, kind, r.reply) && r.reply.Response?
    ensures var w' := Reward(cfg, kind, i, w, r);
            w'.cache == w.cache && w'.now == w.now + r.dRecord && Shut(cfg, w') && EndsClean(w', kind, r.reply.body)
            && w'.ua == w.ua && (cfg.antiBot.breaker.Some? ==> w'.breaker == Breaker.FRESH)
  {
  }

  /** The last thing that happened is a clean response to such a request, with this body. */
  predicate EndsClean(w: World, kind: Request, body: Body) {
    && |w.trace| > 1
    && w.trace[|w.trace| - 1].Clean? && w.trace[|w.trace| - 1].kind == kind
    && Brought(w.trace[|w.trace| - 2], kind, body)
  }

  /** When the request went out whose outcome the trace ends with. */
  function LastAsked(tr: seq<Event>): int {
    if |tr| > 1 && tr[|tr| - 2].Sent? then tr[|tr| - 2].at else 0
  }

  lemma RewardAsked(cfg: Config, kind: Request, i: nat, token: string, w: World, r: Round)
    ensures var w1 := Judge(cfg, i, Send(cfg, kind, token, w, r), r).0;
            LastAsked(Reward(cfg, kind, i, w1, r).trace) == w.now + r.dSend
  {
    hide Send, Reward, Judge;
  }

  lemma PunishSafe(cfg: Config, kind: Request, i: nat, w: World, r: Round)
    requires Sound(cfg, w) && JustSent(w, kind, r.reply) && BlockedReply(cfg, r.reply)
    ensures Safe(cfg, Punish(cfg, kind, i, w, r))
  {
    hide Sound, Safe, Moved, BlockedReply;
    PunishMoves(cfg, kind, i, w, r);
    PunishShape(cfg, kind, i, w, r);
    hide Punish;
    NoteSafe(cfg, w, Punish(cfg, kind, i, w, r), BlockEvent(kind, i, w, r));
  }

  lemma PunishShape(cfg: Config, kind: Request, i: nat, w: World, r: Round)
    ensures var w' := Punish(cfg, kind, i, w, r);
            && w'.cache == (if cfg.antiBot.vqdInvalidate then map[] else w.cache)
            && w'.now == BlockEvent(kind, i, w, r).failed && w'.ua == w.ua
  {
    hide TellLimiter, TellBreaker, TellProxy, Tell;
  }

  lemma ChallengeSafe(cfg: Config, w: World, r: Round)
    requires Safe(cfg, w)
    ensures Safe(cfg, Challenge(cfg, w, r).0)
  {
    hide Safe;
    var (w', solved) := Challenge(cfg, w, r);
    if solved {
      NoteSafe(cfg, w, w', w'.trace[|w.trace|]);
    } else {
      LaterSafe(cfg, w, w');
    }
  }

  lemma RestSafe(cfg: Config, kind: Request, i: nat, w: World, r: Round)
    requires Safe(cfg, w) && Tried(w.trace, kind)
    ensures Safe(cfg, Rest(cfg, kind, i, w, r).0)
  {
    hide Safe, Pause, PauseOk;
    PauseInRange(cfg, i, r);
    var w' := Rest(cfg, kind, i, w, r).0;
    if |w'.trace| > |w.trace| {
      NoteSafe(cfg, w, w', w'.trace[|w.trace|]);
    }
  }

  lemma PauseInRange(cfg: Config, i: nat, r: Round)
    ensures Pause(cfg, i, r) > 0 ==> PauseOk(cfg, i, Pause(cfg, i, r))
  {
    hide Backoff.Longest, Backoff.Shortest, Backoff.Delay, Backoff.Factor;
    if cfg.jitterFrac >= 0.0 && Backoff.Longest(cfg.baseDelay, i, cfg.jitterFrac) < Backoff.TWO_63 as real {
      Backoff.DelayRange(cfg.baseDelay, i, cfg.jitterFrac, r.u, cfg.saturates);
    }
  }

  lemma StoreSafe(cfg: Config, query: string, ua: string, value: string, body: Body, start: Instant, w: World)
    requires Safe(cfg, w) && EndsClean(w, Vqd(query), body) && value == body.vqd
    requires value != "" && (cfg.antiBot.solving || ua == cfg.ua) && start <= LastAsked(w.trace)
    ensures var w' := Store(cfg, CacheKey(query, ua), value, start, w);
            Safe(cfg, w') && TokenOk(cfg, w'.trace, query, value)
  {
    hide Sound, CacheSound, BreakerOps, LimiterOps;
    var key := CacheKey(query, ua);
    var e := Stored(key, value, start);
    var w1 := Note(w, e);
    NoteSafe(cfg, w, w1, e);
    var j := |w.trace|;
    assert w1.trace[j] == e && w1.trace[j - 1] == w.trace[j - 1] && w1.trace[j - 2] == w.trace[j - 2];
    assert IssuedAt(cfg, w1.trace, j, key, value);
    var t := Token(value, start + cfg.vqdTTL);
    assert Backed(cfg, w1.trace, key, t);
    EntrySound(cfg, w1, key, t);
    CacheSafe(cfg, w1, Store(cfg, key, value, start, w));
  }

  lemma EntrySound(cfg: Config, w: World, key: string, t: Token)
    requires Safe(cfg, w) && Backed(cfg, w.trace, key, t)
    ensures CacheSound(cfg, w.(cache := w.cache[key := t]))
  {
    hide Backed;
  }

  lemma CacheSafe(cfg: Config, w: World, w': World)
    requires Safe(cfg, w) && w' == w.(cache := w'.cache) && CacheSound(cfg, w')
    ensures Safe(cfg, w')
  {
  }

  lemma HitSafe(cfg: Config, query: string, w: World)
    requires Safe(cfg, w) && Cached(w, CacheKey(query, w.ua))
    ensures var key := CacheKey(query, w.ua);
            var w' := Note(w, CacheHit(key, w.cache[key].value, w.now));
            Safe(cfg, w') && TokenOk(cfg, w'.trace, query, w.cache[key].value)
  {
    hide Safe, Sound, InOrder;
    var key := CacheKey(query, w.ua);
    var t := w.cache[key];
    var e := CacheHit(key, t.value, w.now);
    var w' := Note(w, e);
    NoteSafe(cfg, w, w', e);
    SafeBacks(cfg, w', key);
    SafeAgent(cfg, w);
    var j: nat :| j < |w'.trace| && IssuedAt(cfg, w'.trace, j, key, t.value)
                  && w'.trace[j].start + cfg.vqdTTL == t.expires;
    assert w'.trace[|w'.trace| - 1] == e;
    assert JustFound(cfg, w'.trace, j);
    assert w'.trace[j].Stored?;
  }

  lemma SafeBacks(cfg: Config, w: World, key: string)
    requires Safe(cfg, w) && key in w.cache
    ensures Backed(cfg, w.trace, key, w.cache[key])
  {
    hide Backed;
  }

  lemma SafeAgent(cfg: Config, w: World)
    requires Safe(cfg, w)
    ensures OneAgent(cfg, w)
  {
  }

  /// The loop, the nested fetch and whole searches keep them

  lemma {:induction false} LoopSafe(cfg: Config, kind: Request, i: nat, w: World)
    requires i < cfg.retryMax && Safe(cfg, w)
    ensures var run := Loop(cfg, kind, i, w);
            && Safe(cfg, run.w)
            && (run.outcome.Done? ==>
                  && Shut(cfg, run.w) && EndsClean(run.w, kind, run.outcome.value)
                  && w.now <= LastAsked(run.w.trace))
    decreases |w.script|, 0
  {
    hide Sound, Quiet, Shut, Gate, Pace, Prepare, Attempt, TookTurn, TurnOk, EndsClean, LastAsked;
    if w.script != [] {
      var r, w0 := w.script[0], w.(script := w.script[1..]);
      LaterSafe(cfg, w, w0);
      GateSafe(cfg, kind, i, w0, r);
      var (w1, open) := Gate(cfg, kind, i, w0, r);
      if !open {
        PaceSafe(cfg, w1, r);
        var (w2, cut) := Pace(cfg, w1, r);
        if !cut {
          PaceTakesTurn(cfg, w1, r);
          PrepareKeepsTurn(cfg, kind, w2, r);
          PrepareSafe(cfg, kind, w2, r);
          var built := Prepare(cfg, kind, w2, r);
          if built.outcome.Done? {
            AttemptSafe(cfg, kind, i, built.outcome.value, built.w, r);
          }
        }
      }
    }
  }

  lemma {:induction false} PrepareSafe(cfg: Config, kind: Request, w: World, r: Round)
    requires Safe(cfg, w) && Shut(cfg, w)
    ensures var run := Prepare(cfg, kind, w, r);
            && Safe(cfg, run.w)
            && (run.outcome.Done? ==> Shut(cfg, run.w))
            && (run.outcome.Done? && kind.Djs? ==> TokenOk(cfg, run.w.trace, kind.query, run.outcome.value))
    decreases |w.script|, 2
  {
    hide Safe, Shut, Fetch, TokenOk;
    if kind.Djs? {
      FetchSafe(cfg, kind.query, w, r);
    }
  }

  lemma {:induction false} FetchSafe(cfg: Config, query: string, w: World, r: Round)
    requires Safe(cfg, w) && Shut(cfg, w)
    ensures var run := Fetch(cfg, query, w, r);
            && Safe(cfg, run.w)
            && (run.outcome.Done? ==> Shut(cfg, run.w) && TokenOk(cfg, run.w.trace, query, run.outcome.value))
    decreases |w.script|, 1
  {
    hide Safe, TokenOk, Loop, EndsClean, LastAsked;
    var w1 := Tick(w, r.dLookup);
    LaterSafe(cfg, w, w1);
    SafeAgent(cfg, w1);
    if Cached(w1, CacheKey(query, w1.ua)) {
      HitSafe(cfg, query, w1);
    } else {
      LoopSafe(cfg, Vqd(query), 0, w1);
      var run := Loop(cfg, Vqd(query), 0, w1);
      if run.outcome.Done? && run.outcome.value.vqd != "" {
        StoreSafe(cfg, query, w1.ua, run.outcome.value.vqd, run.outcome.value, w1.now, run.w);
      }
    }
  }

  lemma {:induction false} AttemptSafe(cfg: Config, kind: Request, i: nat, token: string, w: World, r: Round)
    requires i < cfg.retryMax && Safe(cfg, w) && Shut(cfg, w)
    requires TurnOk(cfg, w.trace, w.limiter.lastReq, kind, w.now)
    requires kind.Djs? ==> TokenOk(cfg, w.trace, kind.query, token)
    ensures var run := Attempt(cfg, kind, i, token, w, r);
            && Safe(cfg, run.w)
            && (run.outcome.Done? ==>
                  && Shut(cfg, run.w) && EndsClean(run.w, kind, run.outcome.value)
                  && w.now <= LastAsked(run.w.trace))
    decreases |w.script|, 2
  {
    hide Safe, Sound, Shut, TokenOk, TurnOk, EndsClean, JustSent, Send, Judge, Reward, Punish, Challenge, Recur, Loop;
    hide BlockedReply, Tried, LastAsked;
    RewardAsked(cfg, kind, i, token, w, r);
    SendSafe(cfg, kind, token, w, r);
    var w0 := Send(cfg, kind, token, w, r);
    JudgeSafe(cfg, i, w0, r);
    SendShape(cfg, kind, token, i, w, r);
    ReplyDecides(cfg, i, w0, r);
    ReplyTells(cfg, i, w0, r);
    var (w1, fate) := Judge(cfg, i, w0, r);
    match fate
    case Finish(outcome) =>
      if outcome.Done? {
        RewardSafe(cfg, kind, i, w1, r);
      } else {
        IdleSafe(cfg, w1, kind, r.reply);
      }
    case Again(e) =>
      IdleSafe(cfg, w1, kind, r.reply);
      TriedBySending(w1, kind, r.reply);
      RecurSafe(cfg, kind, i, e, w1, r);
    case Handle(e) =>
      PunishSafe(cfg, kind, i, w1, r);
      ChallengeSafe(cfg, Punish(cfg, kind, i, w1, r), r);
      TriedByBlock(cfg, kind, i, w1, r);
      var (w2, solved) := Challenge(cfg, Punish(cfg, kind, i, w1, r), r);
      if solved {
        LoopSafe(cfg, kind, i, w2);
      } else {
        RecurSafe(cfg, kind, i, e, w2, r);
      }
  }

  lemma TriedBySending(w: World, kind: Request, reply: Reply)
    requires JustSent(w, kind, reply)
    ensures Tried(w.trace, kind)
  {
  }

  lemma TriedByBlock(cfg: Config, kind: Request, i: nat, w: World, r: Round)
    ensures Tried(Punish(cfg, kind, i, w, r).trace, kind)
  {
    hide Punish;
  }

  lemma {:induction false} RecurSafe(cfg: Config, kind: Request, i: nat, e: Errors.Error, w: World, r: Round)
    requires i < cfg.retryMax && Safe(cfg, w)
    requires Tried(w.trace, kind)
    ensures var run := Recur(cfg, kind, i, e, w, r);
            && Safe(cfg, run.w)
            && (run.outcome.Done? ==>
                  && Shut(cfg, run.w) && EndsClean(run.w, kind, run.outcome.value)
                  && w.now <= LastAsked(run.w.trace))
    decreases |w.script|, 1
  {
    hide Safe, Shut, EndsClean, Rest, Loop, Tried, LastAsked;
    if i < cfg.retryMax - 1 {
      RestSafe(cfg, kind, i, w, r);
      var (w1, cut) := Rest(cfg, kind, i, w, r);
      if !cut {
        LoopSafe(cfg, kind, i + 1, w1);
      }
    }
  }

  lemma WarmupSafe(cfg: Config, w: World)
    requires Safe(cfg, w)
    ensures Safe(cfg, Warmup(cfg, w).w)
  {
    hide Safe, Proxies.PickFrom;
    if cfg.antiBot.warmupTTL.Some? && w.script != [] {
      var r := w.script[0];
      var w1 := Tick(w.(script := w.script[1..]), r.dCheck);
      LaterSafe(cfg, w, w1);
      var w2 := Tick(w1, r.dSend);
      LaterSafe(cfg, w1, w2);
      GreetingSafe(cfg, w2, r.proxyDraw);
      var w3 := Tick(Greeted(cfg, w2, r.proxyDraw), r.dReply);
      LaterSafe(cfg, Greeted(cfg, w2, r.proxyDraw), w3);
      GreetingSafe(cfg, w3, r.warmupDraw);
      var w4 := Greeted(cfg, w3, r.warmupDraw);
      LaterSafe(cfg, w4, Tick(w4, r.dRecord).(warmed := true, lastWarmup := w4.now + r.dRecord));
    }
  }

  /** One homepage request. */
  function Greeted(cfg: Config, w: World, draw: nat): World {
    var w1 := PickProxy(cfg, w, draw);
    Note(w1, WarmupSent(w1.lastProxy, w1.now))
  }

  lemma GreetingSafe(cfg: Config, w: World, draw: nat)
    requires Safe(cfg, w)
    ensures Safe(cfg, Greeted(cfg, w, draw))
  {
    hide Safe, ProxyOk, HealthAfter, Proxies.PickFrom;
    PickLawful(cfg, w, w, draw);
    NoteSafe(cfg, w, Greeted(cfg, w, draw), WarmupSent(PickProxy(cfg, w, draw).lastProxy, w.now));
  }

  lemma SearchSafe(cfg: Config, query: string, max: int, offset: int, w: World)
    requires Safe(cfg, w)
    ensures Safe(cfg, Search(cfg, query, max, offset, w).w)
  {
    hide Safe, Loop, Warmup;
    WarmupSafe(cfg, w);
    var w1 := Warmup(cfg, w).w;
    LoopSafe(cfg, Djs(query, offset), 0, w1);
    LoopSafe(cfg, Html(query, offset), 0, SearchDjs(cfg, query, offset, w1).w);
  }

  lemma {:induction false} SearchesSafe(cfg: Config, calls: seq<Call>, w: World)
    requires Safe(cfg, w)
    ensures Safe(cfg, Searches(cfg, calls, w))
  {
    hide Safe, Search;
    if calls != [] {
      SearchesSafe(cfg, calls[..|calls| - 1], w);
      var c := calls[|calls| - 1];
      SearchSafe(cfg, c.query, c.max, c.offset, Searches(cfg, calls[..|calls| - 1], w));
    }
  }

  lemma InitialSafe(cfg: Config, now: Instant, script: seq<Round>)
    ensures Safe(cfg, Initial(cfg, now, script))
  {
  }

  /** The world after any run of a new client. */
  function Ran(cfg: Config, calls: seq<Call>, now: Instant, script: seq<Round>): World {
    Searches(cfg, calls, Initial(cfg, now, script))
  }

  lemma RanSafe(cfg: Config, calls: seq<Call>, now: Instant, script: seq<Round>)
    ensures Safe(cfg, Ran(cfg, calls, now, script))
  {
    hide Safe, Searches;
    InitialSafe(cfg, now, script);
    SearchesSafe(cfg, calls, Initial(cfg, now, script));
  }

  /// What the invariants say of one event

  lemma SentOk(cfg: Config, w: World, k: nat)
    requires Sound(cfg, w) && k < |w.trace| && w.trace[k].Sent?
    ensures SendOk(cfg, w.trace[..k], w.trace[k])
  {
    hide SendOk, Agrees, Timely, CacheSound, InOrder, OneAgent;
  }

  lemma RouteAt(cfg: Config, w: World, k: nat)
    requires Sound(cfg, w) && k < |w.trace| && (w.trace[k].Sent? || w.trace[k].WarmupSent?)
    ensures RouteOk(cfg, w.trace[..k], w.trace[k])
  {
    hide RouteOk, TokenOk, TurnOk, Agrees, Timely, CacheSound, InOrder, OneAgent;
    assert Lawful(cfg, w.trace[..k], w.trace[k]);
  }

  lemma SentToken(cfg: Config, before: seq<Event>, e: Event)
    requires e.Sent? && SendOk(cfg, before, e)
    ensures e.kind.Djs? ==> TokenOk(cfg, before, e.kind.query, e.token)
    ensures TurnOk(cfg, before, LastSlot(cfg, before), e.kind, e.at)
  {
    hide TokenOk, TurnOk, ProxyOk;
  }

  lemma IssuedOk(cfg: Config, w: World, k: nat)
    requires Sound(cfg, w) && k < |w.trace| && w.trace[k].Stored?
    ensures Issued(cfg, w.trace[..k], w.trace[k])
  {
    hide Issued, Agrees, Timely, CacheSound, Sends, OneAgent, Paired, AllHeeded, AllPaused, TurnsSpaced;
  }

  lemma OutcomeOk(cfg: Config, w: World, k: nat)
    requires Sound(cfg, w) && k < |w.trace| && (w.trace[k].Block? || w.trace[k].Clean?)
    ensures Follows(cfg, w.trace[..k], w.trace[k])
  {
    hide Follows, Agrees, Timely, CacheSound, Sends, OneAgent, AllIssued, AllHeeded, AllPaused, TurnsSpaced;
  }

  lemma PauseAt(cfg: Config, w: World, k: nat)
    requires Sound(cfg, w) && k < |w.trace| && w.trace[k].Slept?
    ensures PausesAfter(cfg, w.trace[..k], w.trace[k])
  {
    hide PausesAfter, Agrees, Timely, CacheSound, Sends, OneAgent, AllIssued, AllHeeded, Paired, TurnsSpaced;
  }

  lemma HeedsOk(cfg: Config, w: World, k: nat)
    requires Sound(cfg, w) && k < |w.trace|
    ensures Heeds(cfg, w.trace[..k], w.trace[k])
  {
    hide Heeds, Agrees, Timely, CacheSound, Sends, OneAgent, AllIssued, AllPaused, Paired, TurnsSpaced;
  }
}
