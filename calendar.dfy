/**
  Time as the app sees it once `Date` and `Calendar` are abstracted.

  A `Date` is a number of seconds since 1970 (Foundation's `TimeInterval`).
  Where the app asks `Calendar.current` for a component of a date, the model
  carries that component alongside the date in a `Moment`; the calendar's own
  arithmetic (time zones, daylight saving) is not modelled.
*/
module Calendar {

  /** Seconds since 00:00:00 UTC on 1 January 1970. */
  type Date = real

  /** Identifiers that Foundation would draw with `UUID()`. */
  type Uuid = nat

  const SecondsPerMinute: real := 60.0
  const SecondsPerDay: real := 86400.0

  /** A date together with its local hour (0..23) and weekday (1 = Sunday .. 7 = Saturday). */
  datatype Moment = Moment(date: Date, hour: int, weekday: int)

  predicate ValidMoment(m: Moment) {
    0 <= m.hour <= 23 && 1 <= m.weekday <= 7
  }

}
