/**
 * The part of Go's `time` package the service relies on: a millisecond count
 * turned into a `time.Duration` (int64 nanoseconds, wrapping on overflow) and
 * the length of a `time.Sleep` on it.
 */
module GoTime {
  import opened Strconv

  /** `time.Millisecond`, in nanoseconds. */
  const Millisecond: int := 1_000_000

  /** An int64 conversion: the integer congruent to `x` modulo 2^64 that lies in int64 range. */
  function Int64(x: int): (r: int)
    ensures MinInt <= r <= MaxInt
    ensures (r - x) % 0x1_0000_0000_0000_0000 == 0
    ensures MinInt <= x <= MaxInt ==> r == x
  {
    (x - MinInt) % 0x1_0000_0000_0000_0000 + MinInt
  }

  /**
   * How long `time.Sleep(time.Duration(ms) * time.Millisecond)` sleeps: the
   * product wraps around as an int64, and a duration that is not positive
   * returns at once.
   */
  function SleepNanos(ms: int): (d: nat)
    ensures 0 <= ms <= MaxInt / Millisecond ==> d == ms * Millisecond
    ensures -(MaxInt / Millisecond) <= ms <= 0 ==> d == 0
    ensures d <= MaxInt
  {
    var n := Int64(ms * Millisecond);
    if n > 0 then n else 0
  }

  /** A millisecond count just past the int64 range of nanoseconds wraps to a negative duration: no sleep at all. */
  lemma SleepWraps()
    ensures SleepNanos(MaxInt / Millisecond) == 9_223_372_036_854_000_000
    ensures SleepNanos(MaxInt / Millisecond + 1) == 0
  {
    assert MaxInt / Millisecond == 9_223_372_036_854;
    assert Int64(9_223_372_036_855 * Millisecond) == 9_223_372_036_855_000_000 - 0x1_0000_0000_0000_0000;
  }
}
