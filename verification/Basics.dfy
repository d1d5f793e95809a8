/** Vocabulary shared by every component: instants, optional values and outcomes. */
module Basics {

  /** A reading of the wall clock, in nanoseconds since the zero time. A real clock never reads the
      zero time, which the program uses to mean "never". */
  type Instant = t: int | 0 < t witness 1

  /** The zero time: the value of a time field that was never set. */
  const ZERO_TIME: nat := 0

  const SECOND: nat := 1_000_000_000
  const MILLISECOND: nat := 1_000_000

  /** A duration that the program insists is positive. */
  type Positive = d: int | 0 < d witness 1

  datatype Option<+T> = None | Some(value: T)

  function Max(a: int, b: int): int {
    if a < b then b else a
  }

  function Min(a: int, b: int): int {
    if a < b then a else b
  }

  /** Conversion of a float to an integer: toward zero. */
  function Trunc(x: real): int {
    if x < 0.0 then -((-x).Floor) else x.Floor
  }
}
