/** What a retry loop returns, and how hard it tries before it gives up. */
module LoopResults {
  import opened Basics
  import opened Budgets
  import opened RetryLoop
  import opened RetrySafety
  import Backoff
  import Errors

  /// How long the pauses are at least

  /** The shortest pause at an exponent, with the smallest jitter. */
  function Least(cfg: Config, e: nat): (d: real)
    ensures d >= 0.0
  {
    var shortest := Backoff.Shortest(cfg.baseDelay, e, cfg.jitterFrac);
    if shortest < 1.0 then 0.0 else shortest - 1.0
  }

  /** The shortest pauses at the exponents from `i` to below `n`, together. */
  function LeastFrom(cfg: Config, i: nat, n: int): (d: real)
    ensures d >= 0.0
    decreases n - i
  {
    if i >= n then 0.0 else Least(cfg, i) + LeastFrom(cfg, i + 1, n)
  }

  lemma {:induction false} LeastGrows(cfg: Config, i: nat, n: int)
    ensures LeastFrom(cfg, i, n) <= LeastFrom(cfg, 0, n)
  {
    hide Least;
    if i > 0 {
      LeastGrows(cfg, i - 1, n);
    }
  }

  /** The longest pause of a loop fits in 64 bits. */
  predicate Fits(cfg: Config) {
    && cfg.jitterFrac >= 0.0
    && (cfg.retryMax > 1 ==>
          Backoff.Longest(cfg.baseDelay, cfg.retryMax - 2, cfg.jitterFrac) < Backoff.TWO_63 as real)
  }

  lemma PauseAtLeast(cfg: Config, i: nat, r: Round)
    requires Fits(cfg) && i < cfg.retryMax - 1
    ensures Max(Pause(cfg, i, r), 0) as real >= Least(cfg, i)
  {
    hide Backoff.Delay, Backoff.Factor, Backoff.Shortest, Backoff.Longest;
    var base, jitter := cfg.baseDelay, cfg.jitterFrac;
    Backoff.LongestGrows(base, i, cfg.retryMax - 2, jitter);
    Backoff.DelayRange(base, i, jitter, r.u, cfg.saturates);
  }

  /// The result of a loop

  /** An error that some reply caused. */
  predicate FromReply(e: Errors.Error) {
    e.Blocked? || e.HttpStatus? || (e.Other? && e.text != "bad request")
  }

  /** An error after which the loop tries again, as long as it has attempts left. */
  predicate Retryable(e: Errors.Error) {
    FromReply(e) && (e.HttpStatus? ==> e.status == 429 || e.status >= 500)
  }

  /** The last reply of a trace, when nothing but its handling came after it. */
  function LastReply(tr: seq<Event>): Option<Reply> {
    var n := |tr|;
    if n > 0 && tr[n - 1].Sent? then Some(tr[n - 1].reply)
    else if n > 1 && (tr[n - 1].Block? || tr[n - 1].Clean?) && tr[n - 2].Sent? then Some(tr[n - 2].reply)
    else None
  }

  /** The error is that of the last reply. */
  predicate Told(cfg: Config, tr: seq<Event>, e: Errors.Error) {
    LastReply(tr).Some? && Tells(cfg, cfg.retryMax, LastReply(tr).value, e)
  }

  /** From `w` to `w'`, all attempts from `i` on went out, with the pauses between them. */
  predicate TriedHard(cfg: Config, i: nat, w: World, w': World) {
    && Requests(w'.trace) >= Requests(w.trace) + cfg.retryMax - i
    && (Fits(cfg) ==> (w'.now - w.now) as real >= LeastFrom(cfg, i, cfg.retryMax - 1))
  }

  /** A clean end is that of the last reply, and so is a failure that a reply caused; a failure that can be
      retried comes after all attempts. */
  predicate Accounts<T>(cfg: Config, i: nat, w: World, run: Run<T>) {
    run.outcome.Failed? && FromReply(run.outcome.error) ==>
      && Told(cfg, run.w.trace, run.outcome.error)
      && (Retryable(run.outcome.error) ==> TriedHard(cfg, i, w, run.w))
  }

  lemma {:induction false} LoopAccounts(cfg: Config, kind: Request, i: nat, w: World)
    requires i < cfg.retryMax
    ensures var run := Loop(cfg, kind, i, w);
            && (run.outcome.Done? ==> EndsClean(run.w, kind, run.outcome.value))
            && Accounts(cfg, i, w, run)
    decreases |w.script|, 0
  {
    hide Gate, Pace, Prepare, Attempt, EndsClean, Told, TriedHard, FromReply, Retryable;
    CallerErrors();
    if w.script != [] {
      var r, w0 := w.script[0], w.(script := w.script[1..]);
      GateFree(cfg, kind, i, w0, r);
      var (w1, open) := Gate(cfg, kind, i, w0, r);
      if !open {
        PaceFree(cfg, w1, r);
        var (w2, cut) := Pace(cfg, w1, r);
        if !cut {
          PrepareAccounts(cfg, kind, i, w2, r);
          var built := Prepare(cfg, kind, w2, r);
          EarlierStart(cfg, i, w, w2, built.w);
          if built.outcome.Done? {
            AttemptAccounts(cfg, kind, i, built.outcome.value, built.w, r);
            EarlierStart(cfg, i, w, built.w, Loop(cfg, kind, i, w).w);
          }
        }
      }
    }
  }

  /** The errors that no reply causes. */
  lemma CallerErrors()
    ensures !FromReply(Errors.CircuitOpen) && !FromReply(Errors.Cancelled) && !FromReply(Errors.NoVqd)
    ensures !FromReply(Errors.Other("bad request"))
  {
  }

  lemma EarlierStart(cfg: Config, i: nat, w: World, w1: World, w': World)
    requires w.now <= w1.now && Requests(w.trace) <= Requests(w1.trace)
    ensures TriedHard(cfg, i, w1, w') ==> TriedHard(cfg, i, w, w')
  {
    hide Fits, LeastFrom, Requests, Rested;
  }

  /** A token fetch that fails has tried at least as hard. */
  lemma {:induction false} PrepareAccounts(cfg: Config, kind: Request, i: nat, w: World, r: Round)
    requires i < cfg.retryMax
    ensures var run := Prepare(cfg, kind, w, r);
            Accounts(cfg, i, w, run) && Requests(run.w.trace) >= Requests(w.trace)
    decreases |w.script|, 2
  {
    hide Loop, Told, TriedHard, FromReply, Retryable, EndsClean, Requests, Rested;
    CallerErrors();
    if kind.Djs? {
      var w1 := Tick(w, r.dLookup);
      var key := CacheKey(kind.query, w1.ua);
      if Cached(w1, key) {
        Append(w1.trace, CacheHit(key, w1.cache[key].value, w1.now));
      } else {
        LoopAccounts(cfg, Vqd(kind.query), 0, w1);
        var run := Loop(cfg, Vqd(kind.query), 0, w1);
        MoreRequests(w1.trace, run.w.trace);
        EarlierStart(cfg, 0, w, w1, run.w);
        FromTheStart(cfg, i, w, run.w);
        if run.outcome.Done? {
          Append(run.w.trace, Stored(key, run.outcome.value.vqd, w1.now));
        }
      }
    }
  }

  lemma FromTheStart(cfg: Config, i: nat, w: World, w': World)
    ensures TriedHard(cfg, 0, w, w') ==> TriedHard(cfg, i, w, w')
  {
    hide Fits, LeastFrom, Requests, Rested;
    LeastGrows(cfg, i, cfg.retryMax - 1);
  }

  lemma {:induction false} MoreRequests(tr: seq<Event>, tr': seq<Event>)
    requires tr <= tr'
    ensures Requests(tr) <= Requests(tr')
  {
    if tr < tr' {
      MoreRequests(tr, tr'[..|tr'| - 1]);
    } else {
      assert tr == tr';
    }
  }

  lemma {:induction false} AttemptAccounts(cfg: Config, kind: Request, i: nat, token: string, w: World, r: Round)
    requires i < cfg.retryMax
    ensures var run := Attempt(cfg, kind, i, token, w, r);
            && (run.outcome.Done? ==> EndsClean(run.w, kind, run.outcome.value))
            && Accounts(cfg, i, w, run)
    decreases |w.script|, 2
  {
    hide Send, Judge, Reward, Punish, Challenge, Recur, Loop, EndsClean, JustSent, Requests, Rested;
    hide Told, TriedHard, FromReply, Retryable, Tells, BlockedReply, CleanReply, AsksForPause;
    SendCosts(cfg, kind, token, w, r);
    SendShape(cfg, kind, token, i, w, r);
    var w0 := Send(cfg, kind, token, w, r);
    ReplyDecides(cfg, i, w0, r);
    ReplyTells(cfg, i, w0, r);
    var (w1, fate) := Judge(cfg, i, w0, r);
    OutcomeFree(cfg, kind, i, w1, r);
    CallerErrors();
    match fate
    case Finish(outcome) =>
      if outcome.Done? {
        RewardShape(cfg, kind, i, w1, r);
      } else if outcome.error != Errors.Cancelled {
        FinalReply(cfg, kind, i, w1, r.reply, outcome.error);
      }
    case Again(e) =>
      JustTold(cfg, kind, i, w1, r.reply, e);
      RecurAccounts(cfg, kind, i, e, w, w1, r);
    case Handle(e) =>
      var w2 := Punish(cfg, kind, i, w1, r);
      BlockTold(cfg, kind, i, w1, r, e);
      ChallengeFree(cfg, w2, r);
      var (w3, solved) := Challenge(cfg, w2, r);
      if solved {
        LoopAccounts(cfg, kind, i, w3);
        EarlierStart(cfg, i, w, w3, Loop(cfg, kind, i, w3).w);
      } else {
        RecurAccounts(cfg, kind, i, e, w, w3, r);
      }
  }

  lemma JustTold(cfg: Config, kind: Request, i: nat, w: World, reply: Reply, e: Errors.Error)
    requires JustSent(w, kind, reply) && Tells(cfg, i + 1, reply, e)
    ensures i == cfg.retryMax - 1 ==> Told(cfg, w.trace, e)
  {
    hide Tells;
  }

  /** A reply that ends the loop at once is not a block, and nothing that can be retried. */
  lemma FinalReply(cfg: Config, kind: Request, i: nat, w: World, reply: Reply, e: Errors.Error)
    requires JustSent(w, kind, reply) && Tells(cfg, i + 1, reply, e)
    requires !BlockedReply(cfg, reply) && reply.Response? && reply.status != 429 && reply.status < 500
    ensures Told(cfg, w.trace, e) && !Retryable(e)
  {
  }

  lemma BlockTold(cfg: Config, kind: Request, i: nat, w: World, r: Round, e: Errors.Error)
    requires JustSent(w, kind, r.reply) && Tells(cfg, i + 1, r.reply, e)
    ensures i == cfg.retryMax - 1 ==> Told(cfg, Punish(cfg, kind, i, w, r).trace, e)
  {
    hide Tells, Punish;
  }

  /** From the world before an attempt that failed like this, to the end of the loop. */
  lemma {:induction false} RecurAccounts(cfg: Config, kind: Request, i: nat, e: Errors.Error, w: World, w1: World,
                                         r: Round)
    requires i < cfg.retryMax && w.now <= w1.now && Requests(w1.trace) == Requests(w.trace) + 1
    requires i == cfg.retryMax - 1 ==> Told(cfg, w1.trace, e)
    ensures var run := Recur(cfg, kind, i, e, w1, r);
            && (run.outcome.Done? ==> EndsClean(run.w, kind, run.outcome.value))
            && Accounts(cfg, i, w, run)
    decreases |w1.script|, 1
  {
    hide Rest, Loop, EndsClean, Told, FromReply, Retryable, Requests, Rested, Fits;
    CallerErrors();
    if i < cfg.retryMax - 1 {
      RestCosts(cfg, kind, i, w1, r);
      RestTakes(cfg, kind, i, w1, r);
      var (w2, cut) := Rest(cfg, kind, i, w1, r);
      if !cut {
        LoopAccounts(cfg, kind, i + 1, w2);
      }
    }
  }

  /** A pause that is not cut short takes its time. */
  lemma RestTakes(cfg: Config, kind: Request, i: nat, w: World, r: Round)
    requires i < cfg.retryMax - 1
    ensures var (w', cut) := Rest(cfg, kind, i, w, r);
            !cut && Fits(cfg) ==> (w'.now - w.now) as real >= Least(cfg, i)
  {
    hide Pause, Least, Fits;
    if Fits(cfg) {
      PauseAtLeast(cfg, i, r);
    }
  }

  /** A request that cannot be built is not sent, and ends the loop. */
  lemma UnbuiltIsUnsent(cfg: Config, kind: Request, i: nat, w: World)
    requires i < cfg.retryMax && w.script != [] && w.script[0].buildFails
    ensures var run := Loop(cfg, kind, i, w);
            !run.outcome.Done? && (!kind.Djs? ==> run.outcome.Failed? && Requests(run.w.trace) == Requests(w.trace))
  {
    hide Gate, Pace, Fetch, Attempt, Requests, Rested;
    var r, w0 := w.script[0], w.(script := w.script[1..]);
    GateFree(cfg, kind, i, w0, r);
    PaceFree(cfg, Gate(cfg, kind, i, w0, r).0, r);
  }

  /// In all

  /** A loop that fails for want of attempts, with an error of the last reply, has sent a request for
      each attempt; and it has taken at least (1 - jitter) * baseDelay * (2^(retryMax - 1) - 1), rounded
      down once per pause, as long as the longest pause fits in 64 bits. A d.js loop that cannot get its
      token has spent as much on that. */
  lemma GivesUpLate(cfg: Config, kind: Request, w: World)
    requires var run := Loop(cfg, kind, 0, w); run.outcome.Failed? && Retryable(run.outcome.error)
    ensures var run := Loop(cfg, kind, 0, w);
            && Told(cfg, run.w.trace, run.outcome.error)
            && Requests(run.w.trace) >= Requests(w.trace) + cfg.retryMax
            && (Fits(cfg) ==>
                  (run.w.now - w.now + cfg.retryMax - 1) as real
                  >= (cfg.baseDelay * (Backoff.Pow2(cfg.retryMax - 1) - 1)) as real * (1.0 - cfg.jitterFrac))
  {
    hide Loop, Told, FromReply, Fits, LeastFrom, Requests, Rested, EndsClean;
    LoopAccounts(cfg, kind, 0, w);
    Backoff.DoubledIsProduct(cfg.baseDelay, cfg.retryMax - 1);
    var total := cfg.baseDelay * (Backoff.Pow2(cfg.retryMax - 1) - 1);
    Backoff.LessOne(cfg.baseDelay, Backoff.Pow2(cfg.retryMax - 1));
    LeastTotal(cfg, 0, cfg.retryMax - 1, cfg.baseDelay, total, 1.0 - cfg.jitterFrac);
  }

  lemma {:induction false} LeastTotal(cfg: Config, i: nat, n: nat, lo: nat, rise: nat, spread: real)
    requires i <= n && spread == 1.0 - cfg.jitterFrac
    requires lo == Backoff.Doubled(cfg.baseDelay, i) && lo + rise == Backoff.Doubled(cfg.baseDelay, n)
    ensures LeastFrom(cfg, i, n) + (n - i) as real >= rise as real * spread
    decreases n - i
  {
    hide Least;
    if i < n {
      Backoff.DoubledMonotone(cfg.baseDelay, i + 1, n);
      LeastTotal(cfg, i + 1, n, 2 * lo, rise - lo, spread);
      LeastIs(cfg, i, lo, spread);
      OneMore(Least(cfg, i), LeastFrom(cfg, i + 1, n), lo, rise - lo, rise, spread, n - i - 1);
    } else {
      Backoff.AddScaled(rise, rise, rise, spread);
    }
  }

  lemma OneMore(x: real, y: real, a: int, b: int, c: int, spread: real, k: int)
    requires x + 1.0 >= a as real * spread && y + k as real >= b as real * spread && a + b == c
    ensures x + y + (k + 1) as real >= c as real * spread
  {
    Backoff.AddScaled(a, b, c, spread);
  }

  lemma LeastIs(cfg: Config, i: nat, lo: nat, spread: real)
    requires lo == Backoff.Doubled(cfg.baseDelay, i) && spread == 1.0 - cfg.jitterFrac
    ensures Least(cfg, i) + 1.0 >= lo as real * spread
  {}
}
