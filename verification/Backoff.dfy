/** The exponential backoff, with the 64-bit arithmetic the program does it in. */
module Backoff {
  import opened Basics

  const TWO_63: int := 0x8000_0000_0000_0000
  const TWO_64: int := 0x1_0000_0000_0000_0000

  /** A value of `rand.Float64()*2 - 1`. */
  type Draw = u: real | -1.0 <= u < 1.0 witness 0.0

  function Pow2(n: nat): (p: nat)
    ensures p >= 1
  {
    if n == 0 then 1 else 2 * Pow2(n - 1)
  }

  /** Two's complement wrap-around. */
  function Wrap(x: int): (y: int)
    ensures -TWO_63 <= y < TWO_63
  {
    (x + TWO_63) % TWO_64 - TWO_63
  }

  /** The base delay doubled `attempt` times, without any limit of width. */
  function Doubled(base: nat, attempt: nat): nat {
    if attempt == 0 then base else 2 * Doubled(base, attempt - 1)
  }

  lemma {:induction false} DoubledIsProduct(base: nat, attempt: nat)
    ensures Doubled(base, attempt) == base * Pow2(attempt)
  {
    if attempt > 0 {
      DoubledIsProduct(base, attempt - 1);
      TwiceOut(base, Pow2(attempt - 1));
    }
  }

  lemma TwiceOut(a: nat, b: nat)
    ensures a * (2 * b) == 2 * (a * b)
  {}

  /** `baseDelay * (1 << attempt)` in 64 bits. */
  function Shifted(base: nat, attempt: nat): int {
    Wrap(Doubled(base, attempt))
  }

  /** Conversion of a float to a 64-bit duration. Out of range, the result depends on the processor:
      it saturates, or it is the least integer. */
  function ToDuration(x: real, saturates: bool): int {
    if x >= TWO_63 as real then (if saturates then TWO_63 - 1 else -TWO_63)
    else if x < -(TWO_63 as real) then -TWO_63
    else Trunc(x)
  }

  function Factor(jitter: real, u: Draw): real {
    1.0 + u * jitter
  }

  /** The delay before the next attempt; nothing is slept when it is not positive. */
  function Delay(base: nat, attempt: nat, factor: real, saturates: bool): int {
    Scaled(Shifted(base, attempt), factor, saturates)
  }

  function Scaled(backoff: int, factor: real, saturates: bool): int {
    ToDuration(backoff as real * factor, saturates)
  }

  /** The pause at an exponent with the largest jitter, and with the smallest, before any rounding. */
  function Longest(base: nat, attempt: nat, jitter: real): real {
    Doubled(base, attempt) as real * (1.0 + jitter)
  }

  function Shortest(base: nat, attempt: nat, jitter: real): real {
    Doubled(base, attempt) as real * (1.0 - jitter)
  }

  lemma WrapMagnitude(p: nat)
    ensures 0 - p <= Wrap(p) <= p
  {
    var k := (p + TWO_63) / TWO_64;
    assert p + TWO_63 == k * TWO_64 + (p + TWO_63) % TWO_64;
  }

  lemma ProductBound(a: real, b: real, p: real, q: real)
    requires -p <= a <= p && -q <= b <= q
    ensures a * b <= p * q
  {
    var aa, bb := if a < 0.0 then -a else a, if b < 0.0 then -b else b;
    assert a * b <= aa * bb;
    assert aa * bb <= p * bb by { assert (p - aa) * bb >= 0.0; }
    assert p * bb <= p * q by { assert p * (q - bb) >= 0.0; }
  }

  /** The factor lies around one; it is one for the middle draw, and the least for the lowest. */
  lemma FactorBound(jitter: real, u: Draw)
    requires jitter >= 0.0
    ensures 1.0 - jitter <= Factor(jitter, u) <= 1.0 + jitter
    ensures Factor(jitter, 0.0) == 1.0 && Factor(jitter, -1.0) == 1.0 - jitter
  {
    ProductBound(u, jitter, 1.0, jitter);
    ProductBound(0.0 - u, jitter, 1.0, jitter);
    assert (0.0 - u) * jitter == 0.0 - u * jitter;
  }

  lemma RoundedBound(x: real, saturates: bool, bound: real)
    requires x <= bound && bound >= 0.0
    ensures Max(ToDuration(x, saturates), 0) as real <= bound
  {}

  lemma ScaledBound(b: int, p: nat, f: real, q: real, saturates: bool)
    requires 0 - p <= b <= p && -q <= f <= q
    ensures Max(Scaled(b, f, saturates), 0) as real <= p as real * q
  {
    ProductBound(b as real, f, p as real, q);
    assert p as real * q >= 0.0;
    RoundedBound(b as real * f, saturates, p as real * q);
  }

  /** Whatever wraps or overflows on the way, no delay is longer than the exact product allows. */
  lemma DelayBound(base: nat, attempt: nat, factor: real, saturates: bool, spread: real, exact: nat)
    requires exact == Doubled(base, attempt) && -spread <= factor <= spread
    ensures Max(Delay(base, attempt, factor, saturates), 0) as real <= exact as real * spread
  {
    WrapMagnitude(exact);
    ScaledBound(Shifted(base, attempt), exact, factor, spread, saturates);
    assert Shifted(base, attempt) == Wrap(exact);
  }

  /** The shifted base is exact if and only if it fits in 64 signed bits. */
  lemma ShiftIsExact(base: nat, attempt: nat)
    ensures Shifted(base, attempt) == Doubled(base, attempt) <==> Doubled(base, attempt) < TWO_63
  {}

  /** The shifted base is the exact one up to a multiple of 2^64, in the range of 64 signed bits. */
  lemma ShiftWraps(base: nat, attempt: nat)
    ensures -TWO_63 <= Shifted(base, attempt) < TWO_63
    ensures (Doubled(base, attempt) - Shifted(base, attempt)) % TWO_64 == 0
  {
    var x := Doubled(base, attempt);
    var k := (x + TWO_63) / TWO_64;
    assert x - Wrap(x) == k * TWO_64;
  }

  /** When the shifted base with its jitter does not fit, a processor that saturates sleeps the longest
      time there is, and any other does not sleep at all. */
  lemma TooLong(base: nat, attempt: nat, factor: real, saturates: bool)
    requires Shifted(base, attempt) as real * factor >= TWO_63 as real
    ensures if saturates then Delay(base, attempt, factor, saturates) == TWO_63 - 1
            else Delay(base, attempt, factor, saturates) <= 0
  {}

  /** No delay of a run wraps or overflows when the longest one, with the largest jitter, fits. */
  lemma DelaysFit(base: nat, attempt: nat, last: nat, factor: real, saturates: bool, spread: real,
                  exact: nat, longest: nat)
    requires exact == Doubled(base, attempt) && longest == Doubled(base, last)
    requires attempt <= last && 1.0 <= spread && -spread <= factor <= spread
    requires longest as real * spread < TWO_63 as real
    ensures Delay(base, attempt, factor, saturates) == Trunc(exact as real * factor)
  {
    DoubledMonotone(base, attempt, last);
    FitsExactly(exact, longest, factor, spread, saturates);
    assert Shifted(base, attempt) == exact;
  }

  lemma FitsExactly(p: nat, q: nat, f: real, g: real, saturates: bool)
    requires p <= q && 1.0 <= g && -g <= f <= g
    requires q as real * g < TWO_63 as real
    ensures Wrap(p) == p && Scaled(p, f, saturates) == Trunc(p as real * f)
  {
    hide Trunc;
    AtLeastItself(q as real, g);
    Magnitude(p as real, f, q as real, g);
    WithinRange(p as real * f, q as real * g, saturates);
  }

  lemma AtLeastItself(a: real, g: real)
    requires a >= 0.0 && g >= 1.0
    ensures a <= a * g
  {
    assert a * (g - 1.0) >= 0.0;
  }

  lemma Negated(a: real, b: real)
    ensures a * -b == -(a * b)
  {}

  lemma Magnitude(a: real, f: real, b: real, g: real)
    requires 0.0 <= a <= b && 0.0 <= g && -g <= f <= g
    ensures -(b * g) <= a * f <= b * g
  {
    ProductBound(a, f, b, g);
    ProductBound(a, -f, b, g);
    Negated(a, f);
  }

  lemma WithinRange(x: real, bound: real, saturates: bool)
    requires -bound <= x <= bound && bound < TWO_63 as real
    ensures ToDuration(x, saturates) == Trunc(x)
  {
  }

  /** As long as the longest pause at this exponent fits in 64 bits, the pause is between the exact
      product with the smallest jitter, rounded down, and that with the largest. */
  lemma DelayRange(base: nat, attempt: nat, jitter: real, u: Draw, saturates: bool)
    requires jitter >= 0.0 && Longest(base, attempt, jitter) < TWO_63 as real
    ensures Shortest(base, attempt, jitter) - 1.0
            < Delay(base, attempt, Factor(jitter, u), saturates) as real
            <= Longest(base, attempt, jitter)
  {
    hide Doubled, Trunc, Factor, Delay;
    FactorBound(jitter, u);
    var f, exact, longest := Factor(jitter, u), Doubled(base, attempt), Longest(base, attempt, jitter);
    var x := ExactDelay(base, attempt, f, 1.0 + jitter, saturates, exact, longest);
    BetweenProducts(exact as real, 1.0 - jitter, f, 1.0 + jitter, Shortest(base, attempt, jitter), x, longest);
    ProductNonNegative(exact as real, 1.0 + jitter);
    TruncRange(x, longest);
  }

  lemma AddScaled(a: int, b: int, c: int, spread: real)
    requires a + b == c
    ensures a as real * spread + b as real * spread == c as real * spread
  {}

  lemma GrowsScaled(a: nat, b: nat, g: real)
    requires a <= b && g >= 0.0
    ensures a as real * g <= b as real * g
  {
    ProductNonNegative((b - a) as real, g);
    AddScaled(a, b - a, b, g);
  }

  lemma LessOne(a: nat, b: nat)
    ensures a * b == a * (b - 1) + a
  {}

  lemma ProductNonNegative(a: real, b: real)
    requires a >= 0.0 && b >= 0.0
    ensures a * b >= 0.0
  {}

  lemma ExactDelay(base: nat, attempt: nat, f: real, g: real, saturates: bool, exact: nat, longest: real)
    returns (x: real)
    requires exact == Doubled(base, attempt) && longest == exact as real * g && longest < TWO_63 as real
    requires 1.0 <= g && -g <= f <= g
    ensures x == exact as real * f && Delay(base, attempt, f, saturates) == Trunc(x)
  {
    hide Doubled, Trunc;
    x := exact as real * f;
    FitsExactly(exact, exact, f, g, saturates);
  }

  lemma BetweenProducts(a: real, lo: real, f: real, hi: real, least: real, x: real, most: real)
    requires 0.0 <= a && lo <= f <= hi && least == a * lo && x == a * f && most == a * hi
    ensures least <= x <= most
  {
    ScaledMonotone(a, lo, f);
    ScaledMonotone(a, f, hi);
  }

  lemma ScaledMonotone(a: real, f: real, g: real)
    requires a >= 0.0 && f <= g
    ensures a * f <= a * g
  {
    assert a * (g - f) >= 0.0;
  }

  lemma TruncRange(x: real, longest: real)
    requires x <= longest && 0.0 <= longest
    ensures x - 1.0 < Trunc(x) as real <= longest
  {
  }

  lemma LongestGrows(base: nat, a: nat, b: nat, jitter: real)
    requires a <= b && jitter >= 0.0
    ensures Longest(base, a, jitter) <= Longest(base, b, jitter)
  {
    hide Doubled;
    DoubledMonotone(base, a, b);
    GrowsScaled(Doubled(base, a), Doubled(base, b), 1.0 + jitter);
  }

  lemma {:induction false} DoubledMonotone(base: nat, a: nat, b: nat)
    requires a <= b
    ensures Doubled(base, a) <= Doubled(base, b)
  {
    if a < b {
      DoubledMonotone(base, a, b - 1);
    }
  }
}
