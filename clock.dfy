/**
 * The server clock as whole seconds. The source reads it through PHP's
 * `date()`, `NOW()` and `HOUR(NOW())`; here an instant is an integer and
 * the calendar fields the mailer looks at are derived from it (UTC).
 */
module Clock {

  const SecondsPerHour: int := 3600
  const SecondsPerDay: int := 86400

  /** Day number of an instant: what `date('Y-m-d')` distinguishes. */
  function Day(t: int): int {
    t / SecondsPerDay
  }

  /** Hour of day, what `HOUR(NOW())` returns. */
  function Hour(t: int): (h: int)
    ensures 0 <= h < 24
  {
    (t % SecondsPerDay) / SecondsPerHour
  }

  /** ISO-8601 weekday, `date('N')`: 1 = Monday ... 7 = Sunday (day 0 was a Thursday). */
  function IsoWeekday(t: int): (d: int)
    ensures 1 <= d <= 7
  {
    (Day(t) + 3) % 7 + 1
  }

  /** Whole days between two instants, in either order: `DateTime::diff(...)->days`. */
  function DaysBetween(a: int, b: int): (n: nat)
    ensures n * SecondsPerDay <= (if a <= b then b - a else a - b) < (n + 1) * SecondsPerDay
  {
    (if a <= b then b - a else a - b) / SecondsPerDay
  }

  /** `DATE_ADD(t, INTERVAL h HOUR)`. */
  function AddHours(t: int, h: int): int {
    t + h * SecondsPerHour
  }

  /** A week later is the same weekday. */
  lemma WeekdayRepeatsWeekly(t: int, u: int)
    requires Day(u) == Day(t) + 7
    ensures IsoWeekday(u) == IsoWeekday(t)
  {
  }
}
