/** Instants as nanoseconds since the zero time, in UTC; days and hours by floor division. */
module Times {
  type Time = int

  const HOUR := 3_600_000_000_000
  const DAY := 86_400_000_000_000

  function Day(t: Time): int {
    t / DAY
  }

  function HourOf(t: Time): int {
    t % DAY / HOUR
  }

  predicate IsMidnightUtc(t: Time) {
    t % DAY == 0
  }

  function StartOfDay(t: Time): Time {
    Day(t) * DAY
  }

  /** A day has 24 hours, and an hour 3600 seconds; an instant lies in exactly one day, and in one of its hours. */
  lemma DaysAndHours(t: Time, day: int, hour: int)
    ensures DAY == 24 * HOUR && HOUR == 3600 * 1_000_000_000
    ensures Day(t) == day <==> day * DAY <= t < (day + 1) * DAY
    ensures HourOf(t) == hour <==> hour * HOUR <= t % DAY < (hour + 1) * HOUR
    ensures 0 <= HourOf(t) < 24
  {
  }

  lemma StartOfDayIsMidnight(t: Time)
    ensures IsMidnightUtc(StartOfDay(t)) && Day(StartOfDay(t)) == Day(t)
    ensures StartOfDay(t) <= t < StartOfDay(t) + 24 * HOUR
    ensures IsMidnightUtc(t) <==> t == StartOfDay(t)
  {
  }

  lemma SameDayIff(t: Time, u: Time)
    ensures StartOfDay(t) == StartOfDay(u) <==> Day(t) == Day(u)
    ensures Day(t) == Day(u) <==> StartOfDay(u) <= t < StartOfDay(u) + DAY
  {
  }
}
