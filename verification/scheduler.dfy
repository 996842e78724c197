/**
 * The midnight refresh delay (discord-bot/bot.js:363-386): how long to wait, from `now`, until the
 * next midnight in Bangkok, recomputed from the clock on every cycle.
 */
module Scheduler {
  import opened Calendar

  /**
   * The delay `scheduleNextMidnight` passes to `setTimeout`. The host shifts `now` into a
   * "Bangkok" Date, moves its local calendar day forward by one and sets the local time to
   * 00:00:00.000; with a host offset that does not change in between, the local wall-clock
   * reading of that shifted Date is `now` plus seven hours.
   */
  function MsUntilNextMidnight(now: int, localOffsetMin: int): (d: int)
    ensures 0 < d <= DayMs
    ensures (now + d + BangkokOffsetMin * MinuteMs) % DayMs == 0
  {
    var bangkokTime := now + (BangkokOffsetMin + localOffsetMin) * MinuteMs;
    var wall := bangkokTime - localOffsetMin * MinuteMs;
    var nextMidnight := (wall / DayMs + 1) * DayMs;
    nextMidnight - wall
  }

  /** The refresh fires at the FIRST Bangkok midnight after `now`: none lies strictly between. */
  lemma NoEarlierMidnight(now: int, localOffsetMin: int, k: int)
    requires 0 < k < MsUntilNextMidnight(now, localOffsetMin)
    ensures (now + k + BangkokOffsetMin * MinuteMs) % DayMs != 0
  {
    var wall := now + BangkokOffsetMin * MinuteMs;
    var q := wall / DayMs;
    assert q * DayMs <= wall < wall + k < (q + 1) * DayMs;
    assert (wall + k) / DayMs == q;
  }

  /** The delay does not depend on the host's time zone. */
  lemma DelayIndependentOfHostOffset(now: int, offset1: int, offset2: int)
    ensures MsUntilNextMidnight(now, offset1) == MsUntilNextMidnight(now, offset2)
  {
  }

  /** Waking up exactly at a Bangkok midnight schedules the next refresh a full day later. */
  lemma AtMidnightWaitsOneDay(now: int, localOffsetMin: int)
    requires (now + BangkokOffsetMin * MinuteMs) % DayMs == 0
    ensures MsUntilNextMidnight(now, localOffsetMin) == DayMs
  {
  }
}
