/**
 The 01:00 boundary of the daily candles, computed from an explicit "now"
 in UTC Unix milliseconds.
 */
module Clock {

  const HourMs: int := 3600000
  const DayMs: int := 86400000

  /** Midnight (UTC) of the day containing `now`. */
  function StartOfDay(now: int): int
  {
    now - now % DayMs
  }

  /** `_getOneOClockStamp(goBackDays)`: today's 01:00 moved back `goBackDays`
      days; for `goBackDays = 0` it is the latest 01:00 not after `now`. */
  function OneOClockStamp(now: int, goBackDays: int): (stamp: int)
    ensures stamp % DayMs == HourMs
    ensures goBackDays != 0 ==> stamp == StartOfDay(now) + HourMs - goBackDays * DayMs
    ensures goBackDays == 0 ==> 0 <= now - stamp < DayMs
  {
    var oneOClock := StartOfDay(now) + HourMs - goBackDays * DayMs;
    if goBackDays == 0 && now < oneOClock then oneOClock - DayMs else oneOClock
  }

  /** There is only one 01:00 within the day before `now`, so the boundary
      for `goBackDays = 0` is fully determined by its contract. */
  lemma LatestOneOClock(now: int, t: int)
    requires t % DayMs == HourMs && 0 <= now - t < DayMs
    ensures t == OneOClockStamp(now, 0)
  {
  }

  /** Going back `g != 0` days counts from today's 01:00 even when it has
      not been reached yet: before 01:00 the result is one day later than
      `g` days before the latest past 01:00. */
  lemma GoBackFromToday(now: int, g: int)
    requires g != 0
    ensures OneOClockStamp(now, g) ==
      OneOClockStamp(now, 0) - g * DayMs + (if now % DayMs < HourMs then DayMs else 0)
  {
  }
}
