/** The proxy pool: health counters per proxy, and three rotation strategies over the proxies that
    are not in cooldown. A pool operation is one step here and uses one clock reading. */
module Proxies {
  import opened Basics
  import opened WeightedChoice

  datatype Strategy = RoundRobin | Random | Weighted

  /** The longest duration there is; the age of a failure that never happened. */
  const MAX_DURATION: int := 0x7fff_ffff_ffff_ffff

  datatype Settings = Settings(cooldown: int, maxFails: int)

  /** The health of one proxy. */
  datatype Vitals = Vitals(consecutiveFails: nat, lastFail: nat, requests: nat, failures: nat)
  {
    predicate Sane() {
      consecutiveFails <= failures <= requests
    }
  }

  const UNTRIED: Vitals := Vitals(0, ZERO_TIME, 0, 0)

  function Succeeded(h: Vitals): Vitals {
    h.(consecutiveFails := 0, requests := h.requests + 1)
  }

  function FailedAt(h: Vitals, now: Instant): Vitals {
    Vitals(h.consecutiveFails + 1, now, h.requests + 1, h.failures + 1)
  }

  function Age(now: Instant, t: nat): int {
    Min(now - t, MAX_DURATION)
  }

  /** What the rotation asks before it uses a proxy. */
  predicate Usable(p: Settings, h: Vitals, now: Instant) {
    h.consecutiveFails < p.maxFails || Age(now, h.lastFail) > p.cooldown
  }

  /** What a statistics snapshot reports. */
  datatype Report = Report(url: string, requests: nat, failures: nat, consecutiveFails: nat, inCooldown: bool)

  /** The positions of the usable proxies, in order. */
  function Available(p: Settings, hs: seq<Vitals>, now: Instant): (out: seq<nat>)
    ensures forall i :: i in out ==> i < |hs| && Usable(p, hs[i], now)
    ensures forall i: nat :: i < |hs| && Usable(p, hs[i], now) ==> i in out
    ensures Increasing(out)
  {
    if hs == [] then []
    else
      var n := |hs| - 1;
      var rest := Available(p, hs[..n], now);
      if Usable(p, hs[n], now) then
        assert forall j :: 0 <= j < |rest| ==> rest[j] in rest;
        rest + [n]
      else rest
  }

  predicate Increasing(s: seq<nat>) {
    forall j, k :: 0 <= j < k < |s| ==> s[j] < s[k]
  }

  /** Everything that decides about a pick, apart from the health of the proxies and the position of
      the round robin. */
  datatype Plan = Plan(strategy: Strategy, rules: Settings, weights: seq<int>)
  {
    /** Only a weighted rotation asks for weights that are not negative. */
    predicate Drawable() {
      strategy.Weighted? ==> NonNegative(weights)
    }
  }

  /** The weights of these positions; 1 where none was set. */
  function WeightsAt(weights: seq<int>, slots: seq<nat>): (ws: seq<int>)
    ensures |ws| == |slots|
    ensures NonNegative(weights) ==> NonNegative(ws)
  {
    seq(|slots|, j requires 0 <= j < |slots| => if slots[j] < |weights| then weights[slots[j]] else 1)
  }

  /** The proxy that a request gets: a usable one, if there is any and the weights make sense. */
  function PickFrom(plan: Plan, hs: seq<Vitals>, rrIndex: nat, now: Instant, draw: nat): (pick: Option<nat>)
    ensures pick.Some? ==> pick.value < |hs| && Usable(plan.rules, hs[pick.value], now)
    ensures plan.Drawable() && pick.None? ==>
              forall i: nat :: i < |hs| ==> !Usable(plan.rules, hs[i], now)
  {
    var avail := Available(plan.rules, hs, now);
    if avail == [] then None
    else
      assert forall j :: 0 <= j < |avail| ==> avail[j] in avail;
      var choice := Choice(plan.strategy, WeightsAt(plan.weights, avail), rrIndex, draw);
      if choice.Some? then Some(avail[choice.value]) else None
  }

  /** Which of the usable proxies is chosen; nothing when the weights to draw from are negative in sum. */
  function Choice(strategy: Strategy, ws: seq<int>, rrIndex: nat, draw: nat): (j: Option<nat>)
    requires |ws| > 0
    ensures j.Some? ==> j.value < |ws|
    ensures j.None? <==> strategy.Weighted? && Sum(ws) < 0
    ensures NonNegative(ws) ==> j.Some?
  {
    TotalNonNegative(ws);
    match strategy
    case RoundRobin => Some(rrIndex % |ws|)
    case Random => Some(draw % |ws|)
    case Weighted =>
      if Sum(ws) == 0 then Some(draw % |ws|)
      else if Sum(ws) < 0 then None
      else Some(FallOf(ws, draw % Sum(ws)))
  }

  lemma {:induction false} TotalNonNegative(ws: seq<int>)
    ensures NonNegative(ws) ==> Sum(ws) >= 0
  {
    if NonNegative(ws) {
      assert ws[..|ws|] == ws;
      PrefixSums(ws, 0, |ws|);
    }
  }

  /** Only a round robin that found a proxy moves on. */
  function Turned(plan: Plan, rrIndex: nat, pick: Option<nat>): nat {
    if plan.strategy.RoundRobin? && pick.Some? then rrIndex + 1 else rrIndex
  }

  class ProxyEntry {
    const url: string
    /** The position in the pool. */
    ghost const slot: nat
    var weight: int
    var consecutiveFails: nat
    var lastFail: nat
    var requests: nat
    var failures: nat

    constructor (url: string, ghost slot: nat)
      ensures this.url == url && this.slot == slot && weight == 1 && Health() == UNTRIED
    {
      this.url, this.slot, weight := url, slot, 1;
      consecutiveFails, lastFail, requests, failures := 0, ZERO_TIME, 0, 0;
    }

    ghost function Health(): Vitals
      reads this
    {
      Vitals(consecutiveFails, lastFail, requests, failures)
    }
  }

  /** The result of asking for a proxy. A weighted draw over a negative total panics. */
  datatype PoolAnswer = Proxy(entry: ProxyEntry) | Exhausted | Panic

  ghost function SlotOf(turn: PoolAnswer): Option<nat> {
    if turn.Proxy? then Some(turn.entry.slot) else None
  }

  class ProxyPool {
    const entries: seq<ProxyEntry>
    const strategy: Strategy
    var cooldown: int
    var maxFails: int
    var rrIndex: nat
    var total: int

    ghost predicate Valid()
      reads this, entries
    {
      && (forall i :: 0 <= i < |entries| ==> entries[i].slot == i)
      && total == Sum(Weights())
      && forall i :: 0 <= i < |entries| ==> entries[i].Health().Sane()
    }

    ghost function Weights(): (ws: seq<int>)
      reads entries
      ensures |ws| == |entries|
    {
      seq(|entries|, i requires 0 <= i < |entries| reads entries => entries[i].weight)
    }

    ghost function Healths(): (hs: seq<Vitals>)
      reads entries
      ensures |hs| == |entries|
    {
      seq(|entries|, i requires 0 <= i < |entries| reads entries => entries[i].Health())
    }

    ghost function Rules(): Settings
      reads this
    {
      Settings(cooldown, maxFails)
    }

    ghost function CurrentPlan(): (plan: Plan)
      reads this, entries
    {
      Plan(strategy, Rules(), Weights())
    }

    constructor (entries: seq<ProxyEntry>, strategy: Strategy)
      requires forall i :: 0 <= i < |entries| ==> entries[i].slot == i
      requires forall i :: 0 <= i < |entries| ==> entries[i].weight == 1 && entries[i].Health() == UNTRIED
      ensures Valid() && this.entries == entries && this.strategy == strategy
      ensures rrIndex == 0 && Rules() == Settings(60 * SECOND, 3)
    {
      this.entries, this.strategy := entries, strategy;
      cooldown, maxFails, rrIndex, total := 60 * SECOND, 3, 0, |entries|;
      new;
      AllOnes(Weights());
    }

    method SetCooldown(cooldown: int, maxFails: int)
      requires Valid()
      modifies this`cooldown, this`maxFails
      ensures Valid() && Rules() == Settings(cooldown, maxFails)
    {
      this.cooldown, this.maxFails := cooldown, maxFails;
    }

    /** Changes the weight of the first proxy with this address, and keeps the total exact. */
    method SetWeight(url: string, weight: int)
      requires Valid()
      modifies this`total, entries
      ensures Valid() && Healths() == old(Healths())
      ensures (forall e :: e in entries ==> e.url != url) ==> Weights() == old(Weights())
      ensures forall i :: 0 <= i < |entries| && entries[i].url == url
                          && (forall j :: 0 <= j < i ==> entries[j].url != url)
                          ==> Weights() == old(Weights())[i := weight]
    {
      for k := 0 to |entries|
        invariant Valid() && unchanged(entries) && unchanged(this)
        invariant forall j :: 0 <= j < k ==> entries[j].url != url
      {
        if entries[k].url == url {
          SumUpdate(Weights(), k, weight);
          total := total + (weight - entries[k].weight);
          entries[k].weight := weight;
          assert Weights() == old(Weights())[k := weight];
          assert forall i :: 0 <= i < |entries| ==> entries[i].Health() == old(entries[i].Health());
          return;
        }
      }
    }

    /** The usable proxies themselves. */
    ghost function Usables(now: Instant): (out: seq<ProxyEntry>)
      reads this, entries
      ensures |out| == |Available(Rules(), Healths(), now)|
    {
      EntriesAt(Available(Rules(), Healths(), now))
    }

    ghost function EntriesAt(slots: seq<nat>): (out: seq<ProxyEntry>)
      requires forall i :: i in slots ==> i < |entries|
      ensures |out| == |slots|
    {
      seq(|slots|, j requires 0 <= j < |slots| => assert slots[j] in slots; entries[slots[j]])
    }

    method AvailableEntries(now: Instant) returns (out: seq<ProxyEntry>)
      requires Valid()
      ensures out == Usables(now)
    {
      out := [];
      assert Healths()[..|entries|] == Healths();
      for k := 0 to |entries|
        invariant out == EntriesAt(Available(Rules(), Healths()[..k], now))
      {
        assert Healths()[..k + 1][..k] == Healths()[..k];
        var e := entries[k];
        if e.consecutiveFails < maxFails || Age(now, e.lastFail) > cooldown {
          out := out + [e];
        }
      }
    }

    /** The next proxy by the pool's strategy; `draw` stands for the random source, reduced to the
        range it is asked for. */
    method Next(now: Instant, draw: nat) returns (turn: PoolAnswer)
      requires Valid()
      modifies this`rrIndex
      ensures Valid() && rrIndex == Turned(CurrentPlan(), old(rrIndex), SlotOf(turn))
      ensures SlotOf(turn) == PickFrom(CurrentPlan(), Healths(), old(rrIndex), now, draw)
      ensures turn.Proxy? ==> turn.entry in entries
      ensures var avail := Available(Rules(), Healths(), now);
              && (turn == Exhausted <==> avail == [])
              && (turn == Panic <==> strategy.Weighted? && Sum(WeightsAt(Weights(), avail)) < 0)
    {
      var out := AvailableEntries(now);
      SlotsOfUsables(now);
      hide Available, WeightsOf, WeightsAt, Usables, Choice, Sum;
      if |out| == 0 {
        return Exhausted;
      }
      var j := ChooseAmong(out, draw);
      if j < 0 {
        return Panic;
      }
      if strategy.RoundRobin? {
        rrIndex := rrIndex + 1;
      }
      turn := Proxy(out[j]);
    }

    /** The strategies; -1 stands for the panic of a draw below a negative total. */
    method ChooseAmong(out: seq<ProxyEntry>, draw: nat) returns (j: int)
      requires |out| > 0
      ensures Choice(strategy, WeightsOf(out), rrIndex, draw) == if j < 0 then None else Some(j)
    {
      match strategy {
        case RoundRobin =>
          j := rrIndex % |out|;
        case Random =>
          j := draw % |out|;
        case Weighted =>
          j := WeightedPick(out, draw);
          ghost var ws := WeightsOf(out);
          if Sum(ws) > 0 {
            FallsOnce(ws, draw % Sum(ws), j, FallOf(ws, draw % Sum(ws)));
          }
      }
    }

    /** The usable entries stand at the usable positions. */
    lemma SlotsOfUsables(now: Instant)
      requires Valid()
      ensures var out, avail := Usables(now), Available(Rules(), Healths(), now);
              && (forall j :: 0 <= j < |avail| ==> out[j].slot == avail[j] && out[j] in entries)
              && WeightsOf(out) == WeightsAt(Weights(), avail)
    {
      var avail := Available(Rules(), Healths(), now);
      hide Available, Sum;
      assert forall j :: 0 <= j < |avail| ==> avail[j] in avail;
      forall j | 0 <= j < |avail|
        ensures Usables(now)[j] == entries[avail[j]] && Usables(now)[j] in entries
        ensures WeightsOf(Usables(now))[j] == WeightsAt(Weights(), avail)[j]
      {
      }
    }

    /** A weighted draw among `out`, uniform when every weight is zero; -1 stands for the panic of a
        draw below a negative total. */
    method WeightedPick(out: seq<ProxyEntry>, draw: nat) returns (j: int)
      requires |out| > 0
      ensures j < |out|
      ensures var ws := WeightsOf(out);
              && (j < 0 <==> Sum(ws) < 0) && (Sum(ws) == 0 ==> j == draw % |out|)
              && (Sum(ws) > 0 ==> Falls(ws, draw % Sum(ws), j))
    {
      var ws: seq<int> := [];
      var total := 0;
      assert WeightsOf(out)[..|out|] == WeightsOf(out);
      for k := 0 to |out|
        invariant ws == WeightsOf(out)[..k] && total == Sum(ws)
      {
        SumAppend(ws, out[k].weight);
        ws := ws + [out[k].weight];
        total := total + out[k].weight;
      }
      if total == 0 {
        return draw % |out|;
      }
      if total < 0 {
        return -1;
      }
      j := Choose(ws, draw % total);
    }

    /** Counts a success for any entry; an entry of another pool leaves this one alone. */
    method MarkSuccess(e: ProxyEntry?)
      requires Valid()
      modifies e
      ensures Valid() && Weights() == old(Weights())
      ensures e != null ==> e.Health() == Succeeded(old(e.Health()))
      ensures e == null || e !in entries ==> Healths() == old(Healths())
      ensures e != null && e in entries ==> Healths() == old(Healths())[e.slot := Succeeded(old(e.Health()))]
    {
      if e == null {
        return;
      }
      e.consecutiveFails := 0;
      e.requests := e.requests + 1;
      if e in entries {
        OnlyOneChanged(e);
      } else {
        assert Healths() == old(Healths()) && Weights() == old(Weights());
      }
    }

    /** Counts a failure for any entry; an entry of another pool leaves this one alone. */
    method MarkFailed(e: ProxyEntry?, now: Instant)
      requires Valid()
      modifies e
      ensures Valid() && Weights() == old(Weights())
      ensures e != null ==> e.Health() == FailedAt(old(e.Health()), now)
      ensures e == null || e !in entries ==> Healths() == old(Healths())
      ensures e != null && e in entries ==> Healths() == old(Healths())[e.slot := FailedAt(old(e.Health()), now)]
    {
      if e == null {
        return;
      }
      e.consecutiveFails := e.consecutiveFails + 1;
      e.lastFail := now;
      e.requests := e.requests + 1;
      e.failures := e.failures + 1;
      if e in entries {
        OnlyOneChanged(e);
      } else {
        assert Healths() == old(Healths()) && Weights() == old(Weights());
      }
    }

    twostate lemma OnlyOneChanged(e: ProxyEntry)
      requires old(Valid()) && e in entries && unchanged(this)
      requires forall x :: x in entries && x != e ==> unchanged(x)
      requires e.weight == old(e.weight)
      ensures Healths() == old(Healths())[e.slot := e.Health()]
      ensures Weights() == old(Weights())
    {
      forall i | 0 <= i < |entries|
        ensures Healths()[i] == if i == e.slot then e.Health() else old(entries[i].Health())
        ensures Weights()[i] == old(entries[i].weight)
      {
        assert entries[i] in entries;
      }
    }

    /** The snapshot of proxy `i`: its counters, and whether the rotation would refuse it. */
    ghost predicate Describes(s: Report, i: nat, now: Instant)
      requires i < |entries|
      reads this, entries
    {
      && s.url == entries[i].url
      && s.requests == entries[i].requests && s.failures == entries[i].failures
      && s.consecutiveFails == entries[i].consecutiveFails
      && s.consecutiveFails <= s.failures <= s.requests
      && (s.inCooldown <==> !Usable(Rules(), entries[i].Health(), now))
    }

    /** A snapshot of every proxy. A request for a proxy at the same instant comes back empty-handed
        exactly when the snapshot has all of them in cooldown. */
    method Stats(now: Instant) returns (out: seq<Report>)
      requires Valid()
      ensures |out| == |entries| && forall i :: 0 <= i < |out| ==> Describes(out[i], i, now)
      ensures Usables(now) == [] <==> forall i :: 0 <= i < |out| ==> out[i].inCooldown
    {
      out := [];
      for k := 0 to |entries|
        invariant |out| == k && forall i :: 0 <= i < k ==> Describes(out[i], i, now)
      {
        var e := entries[k];
        assert e.Health().Sane();
        out := out + [Report(e.url, e.requests, e.failures, e.consecutiveFails,
                             e.consecutiveFails >= maxFails && Age(now, e.lastFail) <= cooldown)];
      }
      AllInCooldown(now);
      assert forall i :: 0 <= i < |out| ==> Describes(out[i], i, now);
      if i :| 0 <= i < |entries| && Usable(Rules(), entries[i].Health(), now) {
        assert !out[i].inCooldown;
      }
    }

    lemma AllInCooldown(now: Instant)
      ensures Usables(now) == [] <==>
              forall i :: 0 <= i < |entries| ==> !Usable(Rules(), entries[i].Health(), now)
    {
      var avail := Available(Rules(), Healths(), now);
      if avail != [] {
        assert avail[0] in avail;
        assert Healths()[avail[0]] == entries[avail[0]].Health();
      } else {
        forall i | 0 <= i < |entries| ensures !Usable(Rules(), entries[i].Health(), now) {
          assert Healths()[i] == entries[i].Health();
        }
      }
    }
  }

  ghost function WeightsOf(out: seq<ProxyEntry>): (ws: seq<int>)
    reads out
    ensures |ws| == |out|
  {
    seq(|out|, k requires 0 <= k < |out| reads out => out[k].weight)
  }

  /** Builds a pool from addresses; an address that does not parse is reported instead. */
  method NewProxyPool(urls: seq<string>, parses: string -> bool, strategy: Strategy)
    returns (pool: ProxyPool?, bad: Option<string>)
    ensures bad == None <==> forall u :: u in urls ==> parses(u)
    ensures bad == None <==> pool != null
    ensures bad.Some? ==> bad.value in urls && !parses(bad.value)
    ensures pool != null ==>
              && fresh(pool) && fresh(pool.entries) && pool.Valid() && pool.strategy == strategy
              && |pool.entries| == |urls| == pool.total
              && forall i :: 0 <= i < |urls| ==>
                   && pool.entries[i].url == urls[i] && pool.entries[i].weight == 1
                   && pool.entries[i].Health() == UNTRIED
  {
    var entries: seq<ProxyEntry> := [];
    for k := 0 to |urls|
      invariant |entries| == k && fresh(entries)
      invariant forall i :: 0 <= i < k ==>
                              && parses(urls[i]) && entries[i].url == urls[i] && entries[i].slot == i
                              && entries[i].weight == 1 && entries[i].Health() == UNTRIED
    {
      if !parses(urls[k]) {
        return null, Some(urls[k]);
      }
      var e := new ProxyEntry(urls[k], k);
      entries := entries + [e];
    }
    pool := new ProxyPool(entries, strategy);
    AllOnes(pool.Weights());
    return pool, None;
  }

  lemma {:induction false} AllOnes(ws: seq<int>)
    requires forall k :: 0 <= k < |ws| ==> ws[k] == 1
    ensures Sum(ws) == |ws|
  {
    if ws != [] {
      AllOnes(ws[..|ws| - 1]);
    }
  }

  lemma {:induction false} SumUpdate(ws: seq<int>, i: nat, w: int)
    requires i < |ws|
    ensures Sum(ws[i := w]) == Sum(ws) + w - ws[i]
  {
    var n := |ws| - 1;
    if i == n {
      assert ws[i := w][..n] == ws[..n];
    } else {
      assert ws[i := w][..n] == ws[..n][i := w];
      SumUpdate(ws[..n], i, w);
    }
  }

  /** A weighted draw panics only when some weight was set negative. */
  lemma {:induction false} NegativeTotal(ws: seq<int>)
    requires Sum(ws) < 0
    ensures !NonNegative(ws)
  {
    if ws[|ws| - 1] >= 0 {
      NegativeTotal(ws[..|ws| - 1]);
    }
  }

  /// The cooldown, said of what a proxy went through

  /** What becomes of a proxy's counters over its outcomes, oldest first: the time of a failure, or
      None for a success. */
  function After(start: Vitals, outcomes: seq<Option<Instant>>): Vitals {
    if outcomes == [] then start
    else
      var h, last := After(start, outcomes[..|outcomes| - 1]), outcomes[|outcomes| - 1];
      if last.Some? then FailedAt(h, last.value) else Succeeded(h)
  }

  /** How many failures the outcomes end with; those before the start are counted in `before`. */
  function TrailingFails(before: nat, outcomes: seq<Option<Instant>>): nat {
    if outcomes == [] then before
    else if outcomes[|outcomes| - 1].None? then 0
    else 1 + TrailingFails(before, outcomes[..|outcomes| - 1])
  }

  /** When the last of the outcomes that was a failure happened. */
  function LastFailure(before: nat, outcomes: seq<Option<Instant>>): nat {
    if outcomes == [] then before
    else
      var last := outcomes[|outcomes| - 1];
      if last.Some? then last.value else LastFailure(before, outcomes[..|outcomes| - 1])
  }

  /** In cooldown by its outcomes: they end with at least `maxFails` failures, and the last failure is
      no older than the cooldown. The longest cooldown there is never ends. */
  predicate Cooling(p: Settings, start: Vitals, outcomes: seq<Option<Instant>>, now: Instant) {
    && TrailingFails(start.consecutiveFails, outcomes) >= p.maxFails
    && (now <= LastFailure(start.lastFail, outcomes) + p.cooldown || p.cooldown >= MAX_DURATION)
  }

  /** The rotation refuses a proxy exactly while it is in cooldown by its outcomes. */
  lemma CooldownByHistory(p: Settings, start: Vitals, outcomes: seq<Option<Instant>>, now: Instant)
    ensures Usable(p, After(start, outcomes), now) <==> !Cooling(p, start, outcomes, now)
  {
    CountersByHistory(start, outcomes);
  }

  lemma {:induction false} CountersByHistory(start: Vitals, outcomes: seq<Option<Instant>>)
    ensures After(start, outcomes).consecutiveFails == TrailingFails(start.consecutiveFails, outcomes)
    ensures After(start, outcomes).lastFail == LastFailure(start.lastFail, outcomes)
  {
    if outcomes != [] {
      CountersByHistory(start, outcomes[..|outcomes| - 1]);
    }
  }

  /// Fairness of the draws

  /** How many of the draws below `n` choose position `j`. */
  function DrawsChoosing(strategy: Strategy, ws: seq<int>, j: nat, n: nat): nat
    requires |ws| > 0
  {
    if n == 0 then 0
    else DrawsChoosing(strategy, ws, j, n - 1) + if Choice(strategy, ws, 0, n - 1) == Some(j) then 1 else 0
  }

  /** A draw without weights is uniform: of the draws below the number of proxies, each one gets one.
      The weighted rotation is like that when no weight is set above zero. */
  lemma {:induction false} RandomIsUniform(strategy: Strategy, ws: seq<int>, j: nat, n: nat)
    requires strategy.Random? || (strategy.Weighted? && Sum(ws) == 0)
    requires j < |ws| && n <= |ws|
    ensures DrawsChoosing(strategy, ws, j, n) == if j < n then 1 else 0
  {
    if n > 0 {
      RandomIsUniform(strategy, ws, j, n - 1);
      SmallModulo(n - 1, |ws|);
    }
  }

  lemma SmallModulo(n: nat, m: nat)
    requires n < m
    ensures n % m == n
  {}

  /** A weighted draw is by weight: of the draws below the total, each proxy gets as many as its weight. */
  lemma WeightedIsExact(ws: seq<int>, j: nat)
    requires NonNegative(ws) && Sum(ws) > 0 && j < |ws|
    ensures DrawsChoosing(Weighted, ws, j, Sum(ws)) == ws[j]
  {
    ChoiceIsExact(ws, j);
    WeightedDraws(ws, j, Sum(ws));
  }

  lemma {:induction false} WeightedDraws(ws: seq<int>, j: nat, n: nat)
    requires j < |ws| && 0 < Sum(ws) && n <= Sum(ws)
    ensures DrawsChoosing(Weighted, ws, j, n) == DrawsFor(ws, j, n)
  {
    if n > 0 {
      WeightedDraws(ws, j, n - 1);
      SmallModulo(n - 1, Sum(ws));
      if Falls(ws, n - 1, j) {
        FallsOnce(ws, n - 1, j, FallOf(ws, n - 1));
      }
    }
  }

  /// Fairness of the round robin

  /** The pool at a request: the health of its proxies by then, and the time. */
  datatype Moment = Moment(hs: seq<Vitals>, now: Instant)

  /** The proxies that a run of requests gets, one request at each of these moments. Between two
      requests any outcomes may be marked. */
  function Rotation(plan: Plan, rrIndex: nat, ms: seq<Moment>): seq<Option<nat>>
    decreases |ms|
  {
    if ms == [] then []
    else
      var pick := PickFrom(plan, ms[0].hs, rrIndex, ms[0].now, 0);
      [pick] + Rotation(plan, Turned(plan, rrIndex, pick), ms[1..])
  }

  /** At every one of these moments, exactly the proxies `avail` are usable. */
  predicate SameAvailable(plan: Plan, ms: seq<Moment>, avail: seq<nat>) {
    forall m :: m in ms ==> Available(plan.rules, m.hs, m.now) == avail
  }

  function CountOf(picks: seq<Option<nat>>, i: nat): nat {
    if picks == [] then 0 else (if picks[0] == Some(i) then 1 else 0) + CountOf(picks[1..], i)
  }

  /** How many numbers below `n` leave the remainder `e` modulo `m`. */
  function Hits(n: nat, m: nat, e: nat): int
    requires m > 0
  {
    (n + m - 1 - e) / m
  }

  lemma QuotientIs(n: int, m: nat, q: int)
    requires m > 0 && 0 <= n - q * m < m
    ensures n / m == q
  {
    var d := n / m;
    assert n == m * d + n % m;
    assert (q - d) * m == q * m - d * m;
    if d < q {
      AtLeastOnce(q - d, m);
    } else if d > q {
      assert (d - q) * m == d * m - q * m;
      AtLeastOnce(d - q, m);
    }
  }

  lemma AtLeastOnce(a: int, m: nat)
    requires a >= 1
    ensures a * m >= m
  {}

  lemma HitsAre(n: nat, m: nat, e: nat, q: int, p: int)
    requires m > 0 && p == q * m && p <= n + m - 1 - e < p + m
    ensures Hits(n, m, e) == q
  {
    QuotientIs(n + m - 1 - e, m, q);
  }

  lemma NextHit(n: nat, m: nat, e: nat)
    requires e < m
    ensures Hits(n + 1, m, e) == Hits(n, m, e) + if n % m == e then 1 else 0
  {
    hide Hits;
    NextHitIn(n, m, e, n / m, n % m, (n / m) * m);
  }

  lemma NextHitIn(n: nat, m: nat, e: nat, q: nat, k: nat, p: nat)
    requires e < m && k < m && p == q * m && n == p + k
    ensures Hits(n + 1, m, e) == Hits(n, m, e) + if k == e then 1 else 0
  {
    hide Hits;
    assert (q + 1) * m == p + m;
    if k <= e {
      HitsAre(n, m, e, q, p);
    } else {
      HitsAre(n, m, e, q + 1, p + m);
    }
    if k < e {
      HitsAre(n + 1, m, e, q, p);
    } else {
      HitsAre(n + 1, m, e, q + 1, p + m);
    }
  }

  lemma {:induction false} RotationCount(plan: Plan, rrIndex: nat, ms: seq<Moment>, avail: seq<nat>, e: nat)
    requires plan.strategy.RoundRobin? && e < |avail| && SameAvailable(plan, ms, avail)
    ensures CountOf(Rotation(plan, rrIndex, ms), avail[e])
            == Hits(rrIndex + |ms|, |avail|, e) - Hits(rrIndex, |avail|, e)
    decreases |ms|
  {
    hide Hits, Available;
    if ms != [] {
      assert Available(plan.rules, ms[0].hs, ms[0].now) == avail;
      RotationCount(plan, rrIndex + 1, ms[1..], avail, e);
      NextHit(rrIndex, |avail|, e);
      var picks := Rotation(plan, rrIndex, ms);
      assert picks[0] == Some(avail[rrIndex % |avail|]);
      assert picks[1..] == Rotation(plan, rrIndex + 1, ms[1..]);
    }
  }

  /** While the same m proxies stay usable, whatever is marked in between, any k consecutive requests
      get each of them floor(k/m) or ceil(k/m) times, wherever the rotation stands. */
  lemma {:induction false} RoundRobinIsFair(plan: Plan, rrIndex: nat, ms: seq<Moment>, avail: seq<nat>, i: nat)
    requires plan.strategy.RoundRobin? && i in avail && SameAvailable(plan, ms, avail)
    ensures |ms| / |avail| <= CountOf(Rotation(plan, rrIndex, ms), i)
    ensures CountOf(Rotation(plan, rrIndex, ms), i) <= (|ms| + |avail| - 1) / |avail|
  {
    hide Rotation, CountOf, Available, Hits;
    var e :| 0 <= e < |avail| && avail[e] == i;
    RotationCount(plan, rrIndex, ms, avail, e);
    HitsIn(rrIndex, |ms|, |avail|, e);
  }

  lemma HitsIn(n: nat, k: nat, m: nat, e: nat)
    requires e < m
    ensures k / m <= Hits(n + k, m, e) - Hits(n, m, e) <= (k + m - 1) / m
  {
    QuotientDifference(n + m - 1 - e, k, m);
  }

  function Quotient(n: nat, m: nat): nat
    requires m > 0
  {
    n / m
  }

  lemma QuotientAt(n: nat, m: nat, q: nat, p: nat)
    requires m > 0 && p == q * m && p <= n < p + m
    ensures Quotient(n, m) == q
  {
    QuotientIs(n, m, q);
  }

  lemma QuotientDifference(a: nat, k: nat, m: nat)
    requires m > 0
    ensures k / m <= (a + k) / m - a / m <= (k + m - 1) / m
  {
    QuotientsIn(a, k, m, a / m, a % m, (a / m) * m, k / m, k % m, (k / m) * m);
  }

  lemma QuotientsIn(a: nat, k: nat, m: nat, qa: nat, ra: nat, pa: nat, qk: nat, rk: nat, pk: nat)
    requires ra < m && rk < m && pa == qa * m && pk == qk * m && a == pa + ra && k == pk + rk
    ensures Quotient(k, m) <= Quotient(a + k, m) - Quotient(a, m) <= Quotient(k + m - 1, m)
  {
    hide Quotient;
    assert (qa + qk) * m == pa + pk && (qa + qk + 1) * m == pa + pk + m && (qk + 1) * m == pk + m;
    QuotientAt(a, m, qa, pa);
    QuotientAt(k, m, qk, pk);
    if ra + rk < m {
      QuotientAt(a + k, m, qa + qk, pa + pk);
    } else {
      QuotientAt(a + k, m, qa + qk + 1, pa + pk + m);
    }
    if rk == 0 {
      QuotientAt(k + m - 1, m, qk, pk);
    } else {
      QuotientAt(k + m - 1, m, qk + 1, pk + m);
    }
  }
}
