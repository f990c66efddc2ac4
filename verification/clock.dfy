/** Calendar arithmetic on timestamps. A timestamp is a number of
    milliseconds of local wall-clock time since 1970-01-01 00:00 (a day is
    always 24 hours: no daylight-saving shifts). Day numbers are floored, so
    instants before 1970 fall on the right calendar day too. */
module Clock {

  const DayMs: int := 24 * 60 * 60 * 1000
  const WeekMs: int := 7 * DayMs

  /** The calendar day holding `t` */
  function Day(t: int): int {
    t / DayMs
  }

  /** `Date.prototype.getDay`: 0 = Sunday .. 6 = Saturday (1970-01-01 was a Thursday) */
  function WeekDay(t: int): (d: nat)
    ensures d < 7
  {
    (Day(t) + 4) % 7
  }

  /** Local midnight that starts the day holding `t` */
  function Midnight(t: int): (m: int)
    ensures m <= t < m + DayMs
    ensures m % DayMs == 0 && Day(m) == Day(t)
  {
    Day(t) * DayMs
  }

  /** `getStartOfWeek`: the most recent Sunday midnight at or before `t` */
  function StartOfWeek(t: int): (w: int)
    ensures w <= t < w + WeekMs
    ensures w % DayMs == 0 && WeekDay(w) == 0
  {
    var d := Day(t) - WeekDay(t);
    assert (d * DayMs) / DayMs == d;
    d * DayMs
  }

  /** `daysAgo(days)` evaluated at `now`: local midnight of the day `days`
      calendar days before the day holding `now`. */
  function DaysAgo(now: int, days: nat): (c: int)
    ensures c % DayMs == 0
    ensures c <= now - days * DayMs < c + DayMs
  {
    Midnight(now) - days * DayMs
  }

  /** Notes of one calendar week share a week start */
  lemma {:induction false} SameWeek(t: int, u: int)
    requires StartOfWeek(t) <= u < StartOfWeek(t) + WeekMs
    ensures StartOfWeek(u) == StartOfWeek(t)
  {
    var w := StartOfWeek(t);
    var v := StartOfWeek(u);
    // both are Sunday midnights within less than a week of each other
    assert (w / DayMs) * DayMs == w && (v / DayMs) * DayMs == v;
    assert (Day(w) + 4) % 7 == 0 && (Day(v) + 4) % 7 == 0;
    assert -7 < Day(w) - Day(v) < 7;
  }
}
