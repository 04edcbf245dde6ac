// Shared vocabulary: optional values, results, and instants.

/** Instants and durations are nanoseconds. A Go `time.Time` is an instant on the
    UTC line, so normalising with `UTC()` is the identity here. */
module Common {
  datatype Option<+T> = None | Some(value: T)

  datatype Result<+T, +E> = Ok(value: T) | Err(error: E)

  const SECOND: int := 1_000_000_000
  const MINUTE: int := 60 * SECOND
  const HOUR: int := 60 * MINUTE
  const DAY: int := 24 * HOUR

  function Max(a: int, b: int): int {
    if a < b then b else a
  }

  function Min(a: int, b: int): int {
    if a < b then a else b
  }

  /** A quotient and a remainder in range are the quotient and the remainder. */
  lemma DayParts(x: int, q: int, m: int)
    requires x == q * DAY + m && 0 <= m < DAY
    ensures x / DAY == q && x % DAY == m
  {
    assert DAY == 86_400_000_000_000;
  }

  lemma DaySplit(x: int)
    ensures x == x / DAY * DAY + x % DAY && 0 <= x % DAY < DAY
  {
  }
}
