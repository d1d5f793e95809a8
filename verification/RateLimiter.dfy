/** The adaptive rate limiter: callers reserve slots in time, at a distance that grows on blocks and
    shrinks on successes.

    Durations are integers. The growth factor is 2; the shrink factor 0.85 is taken as 17/20, rounded
    down. The standard normal draw is an arbitrary real, so whatever is proved needs no statistics. As for
    the breaker, a history is one interleaving of any number of callers, in mutex order. */
module RateLimiter {
  import opened Basics

  datatype Op =
    | Wait(now: Instant, z: real)
    | OnBlock
    | OnSuccess

  datatype Range = Range(base: Positive, max: Positive)

  /** The two mutable fields: the present delay, and the last reserved slot. */
  datatype State = State(current: int, lastReq: nat)

  function Fresh(r: Range): State {
    State(r.base, ZERO_TIME)
  }

  function Clamp(d: int, lo: int, hi: int): int {
    if d < lo then lo else if d > hi then hi else d
  }

  function Grown(r: Range, current: int): int {
    Clamp(current * 2, r.base, r.max)
  }

  function Shrunk(r: Range, current: int): int {
    Max(current * 17 / 20, r.base)
  }

  /** A draw from a normal distribution, by the standard normal draw `z`. */
  function Gaussian(mean: int, stddev: int, z: real): int {
    Trunc(mean as real + stddev as real * z)
  }

  /** A draw around the present delay, with a quarter of it as deviation. */
  function Jittered(r: Range, current: int, z: real): int {
    Clamp(Gaussian(current, current / 4, z), r.base / 2, r.max * 2)
  }

  /** How long a caller that arrives `now` has to wait. */
  function Delay(r: Range, s: State, now: Instant, z: real): (wait: nat) {
    var elapsed, d := now - s.lastReq, Jittered(r, s.current, z);
    if s.lastReq != ZERO_TIME && elapsed < d then d - elapsed else 0
  }

  function Step(r: Range, s: State, op: Op): State {
    match op
    case Wait(now, z) => s.(lastReq := now + Delay(r, s, now, z))
    case OnBlock => s.(current := Grown(r, s.current))
    case OnSuccess => s.(current := Shrunk(r, s.current))
  }

  function Replay(r: Range, h: seq<Op>): State {
    if h == [] then Fresh(r) else Step(r, Replay(r, h[..|h| - 1]), h[|h| - 1])
  }

  lemma ReplayAppend(r: Range, h: seq<Op>, op: Op)
    ensures Replay(r, h + [op]) == Step(r, Replay(r, h), op)
  {
    assert (h + [op])[..|h|] == h;
  }

  class AdaptiveRateLimiter {
    const range: Range
    var current: int
    var lastReq: nat
    ghost var history: seq<Op>

    ghost predicate Valid()
      reads this
    {
      Fields() == Replay(range, history)
    }

    ghost function Fields(): State
      reads this
    {
      State(current, lastReq)
    }

    constructor (base: Positive, max: Positive)
      ensures Valid() && history == []
      ensures range == Range(base, max) && Fields() == Fresh(range)
    {
      range := Range(base, max);
      current, lastReq, history := base, ZERO_TIME, [];
    }

    /** Reserves the next slot and tells the caller how long to sleep until it. The slot stays
        reserved when the caller's context is cancelled during that sleep. */
    method Wait(now: Instant, z: real) returns (wait: nat)
      requires Valid()
      modifies this
      ensures Valid() && history == old(history) + [Op.Wait(now, z)]
      ensures Fields() == Step(range, old(Fields()), Op.Wait(now, z))
      ensures lastReq == now + wait && current == old(current)
      ensures old(lastReq) == ZERO_TIME ==> wait == 0
      ensures old(lastReq) != ZERO_TIME ==> lastReq == Max(now, old(lastReq) + Jittered(range, current, z))
    {
      ReplayAppend(range, history, Op.Wait(now, z));
      hide Replay;
      var stddev := current / 4;
      var jittered := Clamp(Gaussian(current, stddev, z), range.base / 2, range.max * 2);
      hide Gaussian;
      wait := 0;
      if lastReq != ZERO_TIME {
        var elapsed := now - lastReq;
        if elapsed < jittered {
          wait := jittered - elapsed;
        }
      }
      lastReq := now + wait;
      history := history + [Op.Wait(now, z)];
    }

    method OnBlock()
      requires Valid()
      modifies this
      ensures Valid() && history == old(history) + [Op.OnBlock]
      ensures Fields() == Step(range, old(Fields()), Op.OnBlock)
      ensures lastReq == old(lastReq)
    {
      ReplayAppend(range, history, Op.OnBlock);
      current := Clamp(current * 2, range.base, range.max);
      history := history + [Op.OnBlock];
    }

    method OnSuccess()
      requires Valid()
      modifies this
      ensures Valid() && history == old(history) + [Op.OnSuccess]
      ensures Fields() == Step(range, old(Fields()), Op.OnSuccess)
      ensures lastReq == old(lastReq)
    {
      ReplayAppend(range, history, Op.OnSuccess);
      var shrunk := current * 17 / 20;
      if shrunk < range.base {
        shrunk := range.base;
      }
      current := shrunk;
      history := history + [Op.OnSuccess];
    }
  }

  /// The delay

  lemma MeanDraw(current: int)
    ensures Gaussian(current, current / 4, 0.0) == current
  {}

  /** For any two settings, the delay lies between the smaller and the larger of them. */
  lemma {:induction false} DelayStaysNear(r: Range, h: seq<Op>)
    ensures Min(r.base, r.max) <= Replay(r, h).current <= Max(r.base, r.max)
  {
    if h != [] {
      DelayStaysNear(r, h[..|h| - 1]);
    }
  }

  /** A block never makes the client faster, in any run, if and only if the base delay does not
      exceed the ceiling. The configuration accepts both kinds of settings. */
  lemma BlockNeverSpeedsUp(r: Range)
    ensures (forall h :: Replay(r, h).current <= Replay(r, h + [OnBlock]).current) <==> r.base <= r.max
  {
    if r.base <= r.max {
      forall h ensures Replay(r, h).current <= Replay(r, h + [OnBlock]).current {
        DelayStaysNear(r, h);
        ReplayAppend(r, h, OnBlock);
      }
    } else {
      ReplayAppend(r, [], OnBlock);
      assert Replay(r, []).current > Replay(r, [] + [OnBlock]).current;
    }
  }

  function Pow(b: nat, n: nat): nat {
    if n == 0 then 1 else b * Pow(b, n - 1)
  }

  function Repeat(op: Op, n: nat): (h: seq<Op>)
    ensures |h| == n
  {
    if n == 0 then [] else Repeat(op, n - 1) + [op]
  }

  /** Blocks alone double the delay up to the ceiling, exactly. */
  lemma {:induction false} BlocksDouble(r: Range, k: nat)
    requires r.base <= r.max
    ensures Replay(r, Repeat(OnBlock, k)).current == Min(r.base * Pow(2, k), r.max)
  {
    if k > 0 {
      BlocksDouble(r, k - 1);
      ReplayAppend(r, Repeat(OnBlock, k - 1), OnBlock);
      PowPositive(2, k - 1);
      DoubledMin(r, Pow(2, k - 1));
    }
  }

  lemma DoubledMin(r: Range, p: int)
    requires r.base <= r.max && p > 0
    ensures Grown(r, Min(r.base * p, r.max)) == Min(r.base * (2 * p), r.max)
  {
    assert r.base * (2 * p) == 2 * (r.base * p);
    assert r.base * p >= r.base by { MulMonotone(r.base, 1, p); }
  }

  lemma {:induction false} PowPositive(b: nat, n: nat)
    requires b > 0
    ensures Pow(b, n) > 0
  {
    if n > 0 {
      PowPositive(b, n - 1);
    }
  }

  /** The delay after `n` successes, starting from `c`. */
  function Relaxed(r: Range, c: int, n: nat): int {
    if n == 0 then c else Shrunk(r, Relaxed(r, c, n - 1))
  }

  /** After any run, `n` further successes relax the delay that run left. */
  lemma {:induction false} SuccessesRelax(r: Range, h: seq<Op>, n: nat)
    ensures Replay(r, h + Repeat(OnSuccess, n)).current == Relaxed(r, Replay(r, h).current, n)
  {
    if n == 0 {
      assert h + [] == h;
    } else {
      SuccessesRelax(r, h, n - 1);
      ReplayAppend(r, h + Repeat(OnSuccess, n - 1), OnSuccess);
      assert h + Repeat(OnSuccess, n) == h + Repeat(OnSuccess, n - 1) + [OnSuccess];
    }
  }

  /** `n` successes leave at most max(base, 0.85^n * c), here multiplied out by 20^n. */
  lemma {:induction false} RelaxedBound(r: Range, c: nat, n: nat)
    ensures Relaxed(r, c, n) >= 0
    ensures Pow(20, n) * Relaxed(r, c, n) <= Max(Pow(20, n) * r.base, Pow(17, n) * c)
  {
    if n > 0 {
      RelaxedBound(r, c, n - 1);
      ShrinkScaled(Pow(20, n - 1), Pow(17, n - 1), Relaxed(r, c, n - 1), r.base, c);
    }
  }

  lemma ShrinkScaled(p: nat, q: nat, d: nat, base: nat, c: nat)
    requires p * d <= Max(p * base, q * c)
    ensures (20 * p) * Max(d * 17 / 20, base) <= Max((20 * p) * base, (17 * q) * c)
  {
    var e := d * 17 / 20;
    FactorOut(20, p, e);
    FactorOut(20, p, base);
    FactorOut(17, q, c);
    FactorIn(20, p, e);
    FactorIn(17, p, d);
    MulMonotone(p, 20 * e, 17 * d);
  }

  lemma FactorOut(k: nat, a: nat, b: nat)
    ensures (k * a) * b == k * (a * b)
  {}

  lemma FactorIn(k: nat, a: nat, b: nat)
    ensures a * (k * b) == k * (a * b)
  {}

  lemma MulMonotone(p: nat, a: int, b: int)
    requires a <= b
    ensures p * a <= p * b
  {}

  /** Successes alone bring the delay back to base, as soon as 0.85^n * c falls below base + 1. */
  lemma {:induction false} RelaxReachesBase(r: Range, c: nat, n: nat)
    requires r.base <= c
    requires Pow(17, n) * c < Pow(20, n) * (r.base + 1)
    ensures Relaxed(r, c, n) == r.base
  {
    hide Pow, Relaxed;
    RelaxedBound(r, c, n);
    RelaxedFloor(r, c, n);
    PowPositive(20, n);
    var p, d := Pow(20, n), Relaxed(r, c, n);
    if d > r.base {
      MulMonotone(p, r.base + 1, d);
      MulMonotone(p, r.base, r.base + 1);
    }
  }

  lemma {:induction false} RelaxedFloor(r: Range, c: int, n: nat)
    requires r.base <= c
    ensures r.base <= Relaxed(r, c, n) <= c
  {
    if n > 0 {
      RelaxedFloor(r, c, n - 1);
    }
  }

  /** From every delay, some finite number of successes reaches base and every larger number stays. */
  lemma {:induction false} SuccessesReachBase(r: Range, c: int, n: nat)
    requires n >= Max(1, c - r.base)
    ensures Relaxed(r, c, n) == r.base
    decreases n
  {
    if n - 1 >= Max(1, c - r.base) {
      SuccessesReachBase(r, c, n - 1);
    } else if r.base <= c {
      RelaxesStrictly(r, c, n - 1);
    } else {
      assert Relaxed(r, c, 0) == c;
    }
  }

  lemma {:induction false} RelaxesStrictly(r: Range, c: int, n: nat)
    requires r.base <= c && n <= c - r.base
    ensures r.base <= Relaxed(r, c, n) <= c - n
  {
    if n > 0 {
      RelaxesStrictly(r, c, n - 1);
    }
  }

  /** One block followed by five successes leaves the delay at most where it was, after every run, if
      and only if the settings are in order. */
  lemma FiveSuccessesRepayABlock(r: Range)
    ensures (forall h :: RepaidIn(r, h, 5)) <==> r.base <= r.max
  {
    hide RepaidIn;
    if r.base <= r.max {
      forall h ensures RepaidIn(r, h, 5) {
        FiveRepay(r, h);
      }
    } else {
      NotRepaid(r);
    }
  }

  predicate RepaidIn(r: Range, h: seq<Op>, n: nat) {
    Replay(r, h + [OnBlock] + Repeat(OnSuccess, n)).current <= Replay(r, h).current
  }

  lemma {:induction false} FiveRepay(r: Range, h: seq<Op>)
    requires r.base <= r.max
    ensures RepaidIn(r, h, 5)
  {
    hide Pow, Relaxed, Replay, Repeat;
    var c := Replay(r, h).current;
    DelayStaysNear(r, h);
    ReplayAppend(r, h, OnBlock);
    SuccessesRelax(r, h + [OnBlock], 5);
    RelaxedBound(r, Grown(r, c), 5);
    PowersOfFive();
  }

  /** With the settings out of order, a first block brings the delay down to the ceiling; a second one
      and five successes bring it back up to base. */
  lemma NotRepaid(r: Range)
    requires r.base > r.max
    ensures !RepaidIn(r, [] + [OnBlock], 5)
  {
    var h := [] + [OnBlock];
    ReplayAppend(r, [], OnBlock);
    ReplayAppend(r, h, OnBlock);
    SuccessesRelax(r, h + [OnBlock], 5);
    SuccessesReachBase(r, Grown(r, r.max), 5);
  }

  lemma PowersOfFive()
    ensures Pow(20, 5) == 3_200_000 && Pow(17, 5) == 1_419_857
  {
    assert Pow(20, 2) == 400 && Pow(17, 2) == 289;
    assert Pow(20, 4) == 160_000 && Pow(17, 4) == 83_521;
  }

  /** Four successes are not enough, already after the first block of a new limiter. */
  lemma FourSuccessesDoNot()
    ensures exists r: Range, h: seq<Op> :: r.base <= r.max && !RepaidIn(r, h, 4)
  {
    var r, h: seq<Op> := Range(1000, 10_000), [];
    ReplayAppend(r, h, OnBlock);
    SuccessesRelax(r, h + [OnBlock], 4);
    assert Grown(r, 1000) == 2000 && Relaxed(r, 2000, 2) == 1445;
    assert Relaxed(r, 2000, 4) == 1043;
    assert !RepaidIn(r, h, 4);
  }

  /// The wait follows the delay

  /** `x` is `y` rounded toward zero. */
  predicate TowardZero(x: int, y: real) {
    if y < 0.0 then (x - 1) as real < y <= x as real else x as real <= y < (x + 1) as real
  }

  /** After any run that reserved a slot, a draw `x` from around the present delay reserves the slot at
      that distance from the last one, unless it is past already; a draw below half the base or above
      twice the ceiling counts as that end. Without a slot yet, nobody waits. */
  lemma NextSlot(r: Range, h: seq<Op>, now: Instant, z: real, y: real, x: int)
    requires var c := Replay(r, h).current; y == c as real + (c / 4) as real * z
    requires TowardZero(x, y)
    ensures var last, slot := Replay(r, h).lastReq, Replay(r, h + [Wait(now, z)]).lastReq;
            if Slots(r, h) == [] then slot == now
            else if x < r.base / 2 then slot == Max(now, last + r.base / 2)
            else slot == Max(now, last + Min(x, r.max * 2))
  {
    hide Slots, Replay, Gaussian;
    ReplayAppend(r, h, Wait(now, z));
    SlotsAreSpaced(r, h);
    GaussianRounds(Replay(r, h).current, z, y, x);
  }

  lemma GaussianRounds(c: int, z: real, y: real, x: int)
    requires y == c as real + (c / 4) as real * z && TowardZero(x, y)
    ensures Gaussian(c, c / 4, z) == x
  {
    GaussianIs(c, c / 4, z, y - c as real);
    RoundsOnce(y, x);
  }

  lemma RoundsOnce(y: real, x: int)
    requires TowardZero(x, y)
    ensures Trunc(y) == x
  {}

  /** With the settings in order, the mean draw waits exactly for the present delay, in every run. */
  lemma MeanDrawWaitsForTheDelay(r: Range, h: seq<Op>, now: Instant)
    requires r.base <= r.max && Slots(r, h) != []
    ensures Replay(r, h + [Wait(now, 0.0)]).lastReq == Max(now, Replay(r, h).lastReq + Replay(r, h).current)
  {
    hide Slots, Replay;
    DelayStaysNear(r, h);
    var c := Replay(r, h).current;
    NoDeviation(c as real, (c / 4) as real);
    NextSlot(r, h, now, 0.0, c as real, c);
  }

  lemma NoDeviation(a: real, b: real)
    ensures a + b * 0.0 == a
  {}

  /** With the settings in order, a block never shortens the next wait and a success never lengthens it,
      for every draw that is not more than a standard deviation low. */
  lemma OutcomesMoveTheWait(r: Range, h: seq<Op>, now: Instant, z: real)
    requires r.base <= r.max && z >= -1.0
    ensures var wait := Delay(r, Replay(r, h), now, z);
            Delay(r, Replay(r, h + [OnSuccess]), now, z) <= wait <= Delay(r, Replay(r, h + [OnBlock]), now, z)
  {
    hide Replay, Gaussian;
    DelayStaysNear(r, h);
    ReplayAppend(r, h, OnBlock);
    ReplayAppend(r, h, OnSuccess);
    var c := Replay(r, h).current;
    GaussianGrows(c, Grown(r, c), z);
    GaussianGrows(Shrunk(r, c), c, z);
  }

  lemma GaussianGrows(c: int, c': int, z: real)
    requires 0 <= c <= c' && z >= -1.0
    ensures Gaussian(c, c / 4, z) <= Gaussian(c', c' / 4, z)
  {
    hide Trunc, Gaussian;
    var p, q := (c / 4) as real * z, (c' / 4) as real * z;
    GaussianIs(c, c / 4, z, p);
    GaussianIs(c', c' / 4, z, q);
    DeviationGrows((c / 4) as real, (c' / 4) as real, z);
    assert c' / 4 - c / 4 <= c' - c;
    TruncGrows(c as real + p, c' as real + q);
  }

  lemma GaussianIs(c: int, d: int, z: real, p: real)
    requires p == d as real * z
    ensures Gaussian(c, d, z) == Trunc(c as real + p)
  {}

  lemma DeviationGrows(a: real, b: real, z: real)
    requires a <= b && z >= -1.0
    ensures b * z - a * z >= a - b
  {
    assert (b - a) * (z + 1.0) >= 0.0;
  }

  lemma TruncGrows(a: real, b: real)
    requires a <= b
    ensures Trunc(a) <= Trunc(b)
  {}

  /// The slots

  /** The slots reserved during a history, oldest first. */
  function Slots(r: Range, h: seq<Op>): seq<nat> {
    if h == [] then []
    else if h[|h| - 1].Wait? then Slots(r, h[..|h| - 1]) + [Replay(r, h).lastReq]
    else Slots(r, h[..|h| - 1])
  }

  /** The least distance between two slots: half the base delay, unless the settings are so far out
      of order that twice the ceiling is less. */
  function Gap(r: Range): nat {
    Min(r.base / 2, r.max * 2)
  }

  predicate Spaced(gap: nat, slots: seq<nat>) {
    forall k :: 0 < k < |slots| ==> slots[k] >= slots[k - 1] + gap
  }

  /** Whatever the callers do and whatever the clock reads, reserved slots keep their distance. */
  lemma {:induction false} SlotsAreSpaced(r: Range, h: seq<Op>)
    ensures Spaced(Gap(r), Slots(r, h))
    ensures Slots(r, h) == [] ==> Replay(r, h).lastReq == ZERO_TIME
    ensures Slots(r, h) != [] ==> Replay(r, h).lastReq == Slots(r, h)[|Slots(r, h)| - 1] > 0
  {
    if h != [] {
      SlotsAreSpaced(r, h[..|h| - 1]);
    }
  }

  /** With any settings for which half the base is at most twice the ceiling, the distance is at
      least half the base; with any others a run shows two slots closer than that. */
  lemma HalfBaseIsKept(r: Range)
    ensures (forall h :: Spaced(r.base / 2, Slots(r, h))) <==> r.base / 2 <= r.max * 2
  {
    if r.base / 2 <= r.max * 2 {
      forall h ensures Spaced(r.base / 2, Slots(r, h)) {
        SlotsAreSpaced(r, h);
      }
    } else {
      var first := Wait(1, 0.0);
      MeanDraw(r.base);
      var h1 := [] + [first];
      var h2 := h1 + [first];
      ReplayAppend(r, [], first);
      ReplayAppend(r, h1, first);
      assert h1[..0] == [] && h2[..1] == h1;
      assert Replay(r, h1).lastReq == 1 && Replay(r, h2).lastReq == 1 + r.max * 2;
      assert Slots(r, h1) == Slots(r, h1[..0]) + [1];
      assert Slots(r, h2) == [1, 1 + r.max * 2];
      assert Slots(r, h2)[1] < Slots(r, h2)[0] + r.base / 2;
    }
  }

  function CountIn(slots: seq<nat>, a: int, b: int): nat {
    if slots == [] then 0
    else CountIn(slots[..|slots| - 1], a, b) + if a <= slots[|slots| - 1] <= b then 1 else 0
  }

  lemma {:induction false} SpacedCount(gap: nat, slots: seq<nat>, a: int, b: int)
    requires Spaced(gap, slots)
    ensures var n := CountIn(slots, a, b);
            n > 0 ==> a + (n - 1) * gap <= Min(b, slots[|slots| - 1])
  {
    if slots != [] {
      var rest := slots[..|slots| - 1];
      SpacedCount(gap, rest, a, b);
      var n := CountIn(rest, a, b);
      if n > 0 {
        NextTurn(n - 1, gap);
      }
    }
  }

  /** Rate bound: a window of length `len` holds at most floor(len / gap) + 1 slots, under any
      interleaving of callers. */
  lemma {:induction false} RateBound(r: Range, h: seq<Op>, a: int, len: nat)
    requires Gap(r) > 0
    ensures CountIn(Slots(r, h), a, a + len) <= len / Gap(r) + 1
  {
    hide Gap, Slots, CountIn, Spaced, Replay;
    SlotsAreSpaced(r, h);
    var n, g := CountIn(Slots(r, h), a, a + len), Gap(r);
    SpacedCount(g, Slots(r, h), a, a + len);
    if n > 0 {
      DivisionBound(n - 1, g, len);
    }
  }

  lemma DivisionBound(n: nat, g: nat, len: nat)
    requires g > 0 && n * g <= len
    ensures n <= len / g
  {
    if n > len / g {
      MulMonotone(g, len / g + 1, n);
    }
  }

  /** How many slots are still ahead of an instant. */
  function Ahead(slots: seq<nat>, now: int): nat {
    if slots == [] then 0
    else Ahead(slots[..|slots| - 1], now) + if slots[|slots| - 1] > now then 1 else 0
  }

  /** No reading in the history is later than `now`. */
  predicate ReadBefore(h: seq<Op>, now: int) {
    forall k :: 0 <= k < |h| && h[k].Wait? ==> h[k].now <= now
  }

  /** The longest delay after clamping: twice the ceiling, unless half the base is more. */
  function Longest(r: Range): nat {
    Max(r.base / 2, r.max * 2)
  }

  lemma {:induction false} QueueIsShort(r: Range, h: seq<Op>, now: Instant)
    requires ReadBefore(h, now)
    ensures Replay(r, h).lastReq <= now + Ahead(Slots(r, h), now) * Longest(r)
  {
    hide Slots, Ahead, Step;
    if h != [] {
      var rest, op := h[..|h| - 1], h[|h| - 1];
      QueueIsShort(r, rest, now);
      LastAhead(r, h, now);
      var q := Ahead(Slots(r, rest), now);
      NextTurn(q, Longest(r));
      SlotIsNear(r, Replay(r, rest), op, now, q * Longest(r));
    }
  }

  lemma NextTurn(q: nat, d: nat)
    ensures (q + 1) * d == q * d + d
  {}

  lemma LastAhead(r: Range, h: seq<Op>, now: int)
    requires h != []
    ensures Ahead(Slots(r, h), now)
            == Ahead(Slots(r, h[..|h| - 1]), now) + if h[|h| - 1].Wait? && Replay(r, h).lastReq > now then 1 else 0
  {
    if h[|h| - 1].Wait? {
      assert Slots(r, h)[..|Slots(r, h)| - 1] == Slots(r, h[..|h| - 1]);
    }
  }

  /** A slot is at most one longest delay behind the queue before it. */
  lemma SlotIsNear(r: Range, s: State, op: Op, now: Instant, queue: nat)
    requires s.lastReq <= now + queue && (op.Wait? ==> op.now <= now)
    ensures Step(r, s, op).lastReq <= now + queue + if op.Wait? && Step(r, s, op).lastReq > now then Longest(r) else 0
  {
  }

  /** A caller with `q` reserved slots still ahead of it waits at most q + 1 times the longest delay. */
  lemma {:induction false} WaitIsBounded(r: Range, h: seq<Op>, now: Instant, z: real)
    requires ReadBefore(h, now)
    ensures Delay(r, Replay(r, h), now, z) <= (Ahead(Slots(r, h), now) + 1) * Longest(r)
  {
    hide Slots, Ahead, Replay;
    QueueIsShort(r, h, now);
    NextTurn(Ahead(Slots(r, h), now), Longest(r));
  }
}
