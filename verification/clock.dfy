/** Wall-clock arithmetic in the business-local frame. A local time is an
    integer number of minutes since 1970-01-01 00:00 of the shifted (naive)
    calendar, so that day boundaries fall on multiples of a day's minutes. */
module Clock {

  const MinutesPerHour := 60
  const MinutesPerDay := 1440

  /** A time of day as written in a schedule entry, already split into
      hour and minute. */
  datatype ClockTime = ClockTime(hour: int, minute: int)

  /** Midnight of the day that contains `t`. */
  function DayStart(t: int): (r: int)
    ensures r <= t < r + MinutesPerDay
    ensures r % MinutesPerDay == 0
  {
    (t / MinutesPerDay) * MinutesPerDay
  }

  /** `t`'s day with its time of day set to `c` (seconds cleared); an hour or
      minute past its usual range carries into the next day, as a UTC hour
      setter does. */
  function At(t: int, c: ClockTime): int {
    DayStart(t) + c.hour * MinutesPerHour + c.minute
  }

  const WeekdayNames: seq<string> :=
    ["sunday", "monday", "tuesday", "wednesday", "thursday", "friday", "saturday"]

  /** Index of `t`'s weekday, Sunday being 0. Day 0 of the epoch is a Thursday. */
  function WeekdayIndex(t: int): (r: nat)
    ensures r < 7
  {
    (t / MinutesPerDay + 4) % 7
  }

  /** The lower-case English name of `t`'s weekday, the key under which the
      weekly schedule lists that day. */
  function WeekdayName(t: int): string {
    WeekdayNames[WeekdayIndex(t)]
  }

  /** The weekday follows the calendar: 1970-01-01 was a Thursday, each new
      day is the next weekday, the name only depends on the day, and it
      repeats every seven days. */
  lemma WeekdayFollowsCalendar(t: int)
    ensures WeekdayName(0) == "thursday"
    ensures WeekdayIndex(t + MinutesPerDay) == (WeekdayIndex(t) + 1) % 7
    ensures WeekdayName(t + 7 * MinutesPerDay) == WeekdayName(t)
    ensures WeekdayName(DayStart(t)) == WeekdayName(t)
  {
    assert (t + MinutesPerDay) / MinutesPerDay == t / MinutesPerDay + 1;
    assert (t + 7 * MinutesPerDay) / MinutesPerDay == t / MinutesPerDay + 7;
    assert DayStart(t) / MinutesPerDay == t / MinutesPerDay;
  }
}
