/** Calendar instants as a JavaScript `Date` exposes them (`getFullYear`,
    `getMonth` with January = 0, `getDate`, time of day), and the date
    arithmetic of `setMonth` and `setFullYear`, which normalise a day of
    month that overflows its month by carrying into the following month(s). */
module Calendar {

  const MsPerDay: int := 86_400_000

  datatype Timestamp = Timestamp(year: int, month: int, day: int, ms: int)

  /** Gregorian leap years (proleptic, as ECMAScript dates are). */
  predicate IsLeapYear(y: int) {
    y % 4 == 0 && (y % 100 != 0 || y % 400 == 0)
  }

  function DaysInMonth(y: int, m: int): (n: int)
    requires 0 <= m < 12
    ensures 28 <= n <= 31
    ensures n == 28 <==> m == 1 && !IsLeapYear(y)
  {
    if m == 1 then (if IsLeapYear(y) then 29 else 28)
    else if m == 3 || m == 5 || m == 8 || m == 10 then 30
    else 31
  }

  predicate Valid(t: Timestamp) {
    && 0 <= t.month < 12
    && 1 <= t.day <= DaysInMonth(t.year, t.month)
    && 0 <= t.ms < MsPerDay
  }

  /** An instant a `Date` can hold: a real day of a real month. */
  type Instant = t: Timestamp | Valid(t) witness Timestamp(1970, 0, 1, 0)

  /** Months counted from year 0, so that month arithmetic is linear. */
  function MonthIndex(y: int, m: int): int {
    12 * y + m
  }

  /** Carries a day of month `d` that is too large for month `m` into the
      next month, repeatedly (the day-number step of ECMAScript MakeDay). */
  function Roll(y: int, m: int, d: int, ms: int): (t: Timestamp)
    requires 0 <= m < 12 && 1 <= d && 0 <= ms < MsPerDay
    decreases d
    ensures Valid(t) && t.ms == ms
    ensures MonthIndex(y, m) <= MonthIndex(t.year, t.month)
    ensures d <= DaysInMonth(y, m) ==> t == Timestamp(y, m, d, ms)
  {
    if d <= DaysInMonth(y, m) then Timestamp(y, m, d, ms)
    else if m == 11 then Roll(y + 1, 0, d - 31, ms)
    else Roll(y, m + 1, d - DaysInMonth(y, m), ms)
  }

  /** `new Date(y, m, d)` with any month number: the month carries into
      the year (floor division), then the day carries into the month. */
  function MakeDate(y: int, m: int, d: int, ms: int): (t: Instant)
    requires 1 <= d && 0 <= ms < MsPerDay
    ensures t.ms == ms
    ensures MonthIndex(y, 0) + m <= MonthIndex(t.year, t.month)
  {
    Roll(y + m / 12, m % 12, d, ms)
  }

  /** `date.setMonth(m)`: keeps the day of month and the time of day. */
  function SetMonth(t: Instant, m: int): Instant {
    MakeDate(t.year, m, t.day, t.ms)
  }

  /** `date.setFullYear(y)`: keeps month, day of month and time of day. */
  function SetFullYear(t: Instant, y: int): Instant {
    MakeDate(y, t.month, t.day, t.ms)
  }

  /** `expiresAt.setMonth(expiresAt.getMonth() + 1)` */
  function AddOneMonth(t: Instant): Instant {
    SetMonth(t, t.month + 1)
  }

  /** `expiresAt.setFullYear(expiresAt.getFullYear() + 1)` */
  function AddOneYear(t: Instant): Instant {
    SetFullYear(t, t.year + 1)
  }

  /** Strict chronological order of instants (`a < b` on dates). */
  predicate Before(a: Timestamp, b: Timestamp) {
    || a.year < b.year
    || (a.year == b.year && a.month < b.month)
    || (a.year == b.year && a.month == b.month && a.day < b.day)
    || (a.year == b.year && a.month == b.month && a.day == b.day && a.ms < b.ms)
  }

  lemma BeforeStrictOrder(a: Timestamp, b: Timestamp, c: Timestamp)
    ensures !Before(a, a)
    ensures Before(a, b) ==> !Before(b, a)
    ensures Before(a, b) && Before(b, c) ==> Before(a, c)
  {
  }

  lemma LaterMonthIsLater(a: Timestamp, b: Timestamp)
    requires 0 <= a.month < 12 && 0 <= b.month < 12
    requires MonthIndex(a.year, a.month) < MonthIndex(b.year, b.month)
    ensures Before(a, b)
  {
  }

  /** One month on is strictly later, whatever the day of month. */
  lemma AddOneMonthIsLater(t: Instant)
    ensures Before(t, AddOneMonth(t))
  {
    LaterMonthIsLater(t, AddOneMonth(t));
  }

  /** One year on is strictly later, Feb 29 included. */
  lemma AddOneYearIsLater(t: Instant)
    ensures Before(t, AddOneYear(t))
  {
    LaterMonthIsLater(t, AddOneYear(t));
  }

  /** The month after (y, m), as (year, month). */
  function NextMonth(y: int, m: int): (r: (int, int))
    requires 0 <= m < 12
    ensures 0 <= r.1 < 12
    ensures MonthIndex(r.0, r.1) == MonthIndex(y, m) + 1
  {
    if m == 11 then (y + 1, 0) else (y, m + 1)
  }

  /** What one month on is: the same day of the next month when that month
      has it; otherwise the surplus days run into the month after
      (Jan 31 becomes Mar 3, or Mar 2 in a leap year). */
  lemma AddOneMonthDate(t: Instant)
    ensures var (ny, nm) := NextMonth(t.year, t.month);
      if t.day <= DaysInMonth(ny, nm) then
        AddOneMonth(t) == Timestamp(ny, nm, t.day, t.ms)
      else
        nm < 11 && AddOneMonth(t) == Timestamp(ny, nm + 1, t.day - DaysInMonth(ny, nm), t.ms)
  {
    var (ny, nm) := NextMonth(t.year, t.month);
    assert t.year + (t.month + 1) / 12 == ny && (t.month + 1) % 12 == nm;
    if t.day > DaysInMonth(ny, nm) {
      assert nm != 11;
      var d' := t.day - DaysInMonth(ny, nm);
      assert d' <= 3;
      assert Roll(ny, nm, t.day, t.ms) == Roll(ny, nm + 1, d', t.ms);
    }
  }

  /** What one year on is: the same month and day, except that Feb 29
      becomes Mar 1 when the next year is not a leap year. */
  lemma AddOneYearDate(t: Instant)
    ensures if t.month == 1 && t.day == 29 && !IsLeapYear(t.year + 1) then
        AddOneYear(t) == Timestamp(t.year + 1, 2, 1, t.ms)
      else
        AddOneYear(t) == Timestamp(t.year + 1, t.month, t.day, t.ms)
  {
    assert (t.month / 12, t.month % 12) == (0, t.month);
    if t.month == 1 && t.day == 29 && !IsLeapYear(t.year + 1) {
      assert Roll(t.year + 1, 1, 29, t.ms) == Roll(t.year + 1, 2, 1, t.ms);
    }
  }

  /** Jan 31 plus one month, in a common and in a leap year. */
  lemma JanuaryThirtyFirstPlusOneMonth()
    ensures AddOneMonth(Timestamp(2025, 0, 31, 0)) == Timestamp(2025, 2, 3, 0)
    ensures AddOneMonth(Timestamp(2024, 0, 31, 0)) == Timestamp(2024, 2, 2, 0)
    ensures AddOneMonth(Timestamp(2025, 11, 15, 0)) == Timestamp(2026, 0, 15, 0)
  {
    AddOneMonthDate(Timestamp(2025, 0, 31, 0));
    AddOneMonthDate(Timestamp(2024, 0, 31, 0));
    AddOneMonthDate(Timestamp(2025, 11, 15, 0));
  }
}
