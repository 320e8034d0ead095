/** Durations: 64-bit nanosecond arithmetic and the exponential backoff. */
module Clock {
  const SECOND := 1_000_000_000
  const TWO_63 := 0x8000_0000_0000_0000
  const TWO_64 := 0x1_0000_0000_0000_0000

  /** Two's-complement wrap-around of a signed 64-bit result. */
  function Int64(x: int): (r: int)
    ensures -TWO_63 <= r < TWO_63 && (r - x) % TWO_64 == 0
    ensures -TWO_63 <= x < TWO_63 ==> r == x
  {
    (x + TWO_63) % TWO_64 - TWO_63
  }

  function Pow2(n: nat): (p: nat)
    ensures p >= 1
  {
    if n == 0 then 1 else 2 * Pow2(n - 1)
  }

  /** The integer part of 2^attempt as a signed 64-bit value. From 2^63 on the
      conversion from floating point is out of range; the value is then the
      smallest 64-bit integer, as on amd64. */
  function PowToInt64(attempt: nat): int {
    if attempt < 63 then Pow2(attempt) else -TWO_63
  }

  /** The delay of `ScheduleRetry` before jitter. */
  function Backoff(attempt: nat): int {
    Int64(PowToInt64(attempt) * SECOND)
  }

  /** A timeout in seconds, as the 64-bit nanosecond count the code computes. */
  function Timeout(seconds: int): int {
    Int64(seconds * SECOND)
  }

  /** The longest timeout whose nanosecond count fits 64 bits. */
  const LONGEST_TIMEOUT := 9223372036

  /** The deadline product is exact up to 9223372036 seconds and for no longer
      timeout; it is then off by a multiple of 2^64 nanoseconds. */
  lemma TimeoutExact(seconds: int)
    requires seconds > 0
    ensures Timeout(seconds) == seconds * SECOND <==> seconds <= 9223372036
    ensures -TWO_63 <= Timeout(seconds) < TWO_63 && (Timeout(seconds) - seconds * SECOND) % TWO_64 == 0
  {
  }
}
