/**
 * Calendar dates as the script sees them after parsing: a year, a month
 * numbered from 0 (January) to 11 (December), as `getMonth` returns it, and a
 * day of the month. Dates are compared field by field, year first.
 */
module Calendar {

  datatype Date = Date(year: int, month: int, day: int)

  /** `a` comes strictly before `b` (lexicographic on year, month, day). */
  predicate Before(a: Date, b: Date) {
    a.year < b.year ||
    (a.year == b.year && (a.month < b.month || (a.month == b.month && a.day < b.day)))
  }

  predicate OnOrBefore(a: Date, b: Date) {
    !Before(b, a)
  }

  /** The (month, day) of `a` comes strictly before that of `b` within one year. */
  predicate MonthDayBefore(a: Date, b: Date) {
    a.month < b.month || (a.month == b.month && a.day < b.day)
  }

  function DaysInMonth(year: int, month: int): (n: int)
    requires 0 <= month < 12
    ensures 28 <= n <= 31
  {
    if month == 1 then (if IsLeapYear(year) then 29 else 28)
    else if month == 3 || month == 5 || month == 8 || month == 10 then 30
    else 31
  }

  predicate IsLeapYear(year: int) {
    year % 4 == 0 && (year % 100 != 0 || year % 400 == 0)
  }

  /**
   * A triple that names a real day. The script never checks this itself: the
   * browser's date picker only hands it such dates.
   */
  predicate IsCalendarDate(d: Date) {
    0 <= d.month < 12 && 1 <= d.day <= DaysInMonth(d.year, d.month)
  }

  /** The `n`-th anniversary of `d`: same month and day, `n` years later. */
  function Anniversary(d: Date, n: int): Date
  {
    Date(d.year + n, d.month, d.day)
  }

  /** The election date of the script, `new Date(2026, 9, 1)`: 1 October 2026. */
  const ElectionDate: Date := Date(2026, 9, 1)

  lemma ElectionDateIsOctoberFirst()
    ensures IsCalendarDate(ElectionDate)
    ensures ElectionDate.year == 2026 && ElectionDate.month == 9 && ElectionDate.day == 1
  {
  }

  /** `Before` is a strict total order: exactly one of before, equal, after. */
  lemma BeforeTrichotomy(a: Date, b: Date)
    ensures Before(a, b) || a == b || Before(b, a)
    ensures !(Before(a, b) && Before(b, a))
    ensures !Before(a, a)
  {
  }

  lemma BeforeTransitive(a: Date, b: Date, c: Date)
    requires Before(a, b) && Before(b, c)
    ensures Before(a, c)
  {
  }
}
