/** What every part uses: a value that may be missing, an outcome, and moments. */
module Common {
  datatype Option<+T> = None | Some(value: T)

  datatype Result<+T, +E> = Ok(value: T) | Err(error: E)

  type Byte = x: int | 0 <= x < 256

  /** A moment of the steady clock, in nanoseconds. */
  type Moment = nat

  const NANOS_IN_A_MILLISECOND: nat := 1_000_000

  /** How long after `past` it is `now`: nothing, when `past` is later. */
  function Since(past: int, now: int): nat { if now < past then 0 else now - past }
}
