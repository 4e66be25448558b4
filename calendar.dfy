/**
 * Calendar dates as Python's `datetime.date` sees them: a (year, month, day)
 * triple, valid when year is in 1..9999 and the day exists in that month of
 * the proleptic Gregorian calendar.  Dates order lexicographically.
 */
module Calendar {

  datatype Date = Date(year: int, month: int, day: int)

  predicate IsLeap(y: int) {
    y % 4 == 0 && (y % 100 != 0 || y % 400 == 0)
  }

  function DaysInMonth(y: int, m: int): (n: int)
    requires 1 <= m <= 12
    ensures 28 <= n <= 31
  {
    if m == 2 then (if IsLeap(y) then 29 else 28)
    else if m == 4 || m == 6 || m == 9 || m == 11 then 30
    else 31
  }

  /** `datetime(year, month, day)` does not raise `ValueError`. */
  predicate ValidDate(d: Date) {
    1 <= d.year <= 9999 && 1 <= d.month <= 12 && 1 <= d.day <= DaysInMonth(d.year, d.month)
  }

  /** `a < b` on dates. */
  predicate Before(a: Date, b: Date) {
    a.year < b.year
    || (a.year == b.year && (a.month < b.month || (a.month == b.month && a.day < b.day)))
  }

  predicate AtOrBefore(a: Date, b: Date) {
    Before(a, b) || a == b
  }

  /** The (year, month) of a date. */
  datatype MonthKey = MonthKey(year: int, month: int)

  function MonthOf(d: Date): MonthKey {
    MonthKey(d.year, d.month)
  }

  predicate MonthBefore(a: MonthKey, b: MonthKey) {
    a.year < b.year || (a.year == b.year && a.month < b.month)
  }

  /** A later date never lies in an earlier month. */
  lemma MonthOfMonotone(a: Date, b: Date)
    requires AtOrBefore(a, b)
    ensures MonthOf(a) == MonthOf(b) || MonthBefore(MonthOf(a), MonthOf(b))
  {
  }
}
