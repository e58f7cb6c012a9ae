/**
 * Calendar dates as the stock fetcher reads them from a java.util.Calendar:
 * the year, the month counted from 1 (Calendar.MONTH + 1) and the day of the month.
 * Days are counted in the proleptic Gregorian calendar.
 */
module Calendar {

  datatype Date = Date(year: int, month: int, day: int)

  predicate IsLeapYear(y: int) {
    y % 4 == 0 && (y % 100 != 0 || y % 400 == 0)
  }

  function DaysInMonth(y: int, m: int): (n: int)
    requires 1 <= m <= 12
    ensures 28 <= n <= 31
    ensures n == 29 <==> m == 2 && IsLeapYear(y)
  {
    if m == 2 then (if IsLeapYear(y) then 29 else 28)
    else if m == 4 || m == 6 || m == 9 || m == 11 then 30
    else 31
  }

  /** A date the calendar can hold: a month 1..12 and a day that exists in that month. */
  predicate Valid(d: Date) {
    1 <= d.month <= 12 && 1 <= d.day <= DaysInMonth(d.year, d.month)
  }

  /** Chronological order of dates. */
  predicate Before(a: Date, b: Date) {
    a.year < b.year
    || (a.year == b.year && a.month < b.month)
    || (a.year == b.year && a.month == b.month && a.day < b.day)
  }

  /** The next calendar day: the reference against which Predecessor is checked. */
  function Successor(d: Date): (r: Date)
    requires Valid(d)
    ensures Valid(r) && Before(d, r)
  {
    if d.day < DaysInMonth(d.year, d.month) then Date(d.year, d.month, d.day + 1)
    else if d.month < 12 then Date(d.year, d.month + 1, 1)
    else Date(d.year + 1, 1, 1)
  }

  /**
   * The previous calendar day, rolling back over the start of a month and of a year
   * and landing on 29 February in leap years: Calendar.add(DAY_OF_MONTH, -1).
   */
  function Predecessor(d: Date): (r: Date)
    requires Valid(d)
    ensures Valid(r) && Before(r, d)
    ensures Successor(r) == d
  {
    if d.day > 1 then Date(d.year, d.month, d.day - 1)
    else if d.month > 1 then Date(d.year, d.month - 1, DaysInMonth(d.year, d.month - 1))
    else Date(d.year - 1, 12, 31)
  }

  /** Going forward one day and back again is the identity. */
  lemma PredecessorOfSuccessor(d: Date)
    requires Valid(d)
    ensures Predecessor(Successor(d)) == d
  {
  }

  /** No valid date lies strictly between a date and its predecessor. */
  lemma PredecessorIsAdjacent(d: Date, e: Date)
    requires Valid(d) && Valid(e)
    ensures !(Before(Predecessor(d), e) && Before(e, d))
  {
  }

  /** The predecessor is the only valid date whose successor is d. */
  lemma PredecessorUnique(d: Date, e: Date)
    requires Valid(d) && Valid(e)
    requires Successor(e) == d
    ensures e == Predecessor(d)
  {
  }
}
