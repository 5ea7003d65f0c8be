/**
 * The part of `System.DateTime` the model needs: a calendar date with a time
 * of day, its `Date` (midnight of the same day) and the constructor
 * `new DateTime(year, month, 1)`.
 */
module Calendar {

  /** Ticks (100 ns) in a day. */
  const TicksPerDay: int := 864000000000

  /** A `DateTime`: year, month, day and the ticks elapsed since midnight. */
  datatype DateTime = DateTime(year: int, month: int, day: int, timeOfDay: int)

  predicate IsLeapYear(year: int) {
    (year % 4 == 0 && year % 100 != 0) || year % 400 == 0
  }

  function DaysInMonth(year: int, month: int): int
    requires 1 <= month <= 12
  {
    if month == 2 then (if IsLeapYear(year) then 29 else 28)
    else if month == 4 || month == 6 || month == 9 || month == 11 then 30
    else 31
  }

  /** The values a `DateTime` can hold: years 1 to 9999, a real day of the
      month, a time of day before the next midnight. */
  predicate Valid(d: DateTime) {
    && 1 <= d.year <= 9999
    && 1 <= d.month <= 12
    && 1 <= d.day <= DaysInMonth(d.year, d.month)
    && 0 <= d.timeOfDay < TicksPerDay
  }

  /** `d.Date`: the same day at midnight. */
  function DateOf(d: DateTime): DateTime {
    d.(timeOfDay := 0)
  }

  /** `new DateTime(d.Year, d.Month, 1)`: midnight on the first of the month. */
  function FirstOfMonth(d: DateTime): DateTime {
    DateTime(d.year, d.month, 1, 0)
  }

  /** `d` falls in the same calendar month of the same year as `e`. */
  predicate SameMonth(d: DateTime, e: DateTime) {
    d.year == e.year && d.month == e.month
  }

  /** `d` is already the first of its month at midnight. */
  predicate IsFirstOfMonth(d: DateTime) {
    d.day == 1 && d.timeOfDay == 0
  }

  /** The first of a valid date's month is a valid date, in the same month,
      on day 1 at midnight, and it has no time of day left for `Date` to drop. */
  lemma FirstOfMonthIsStartOfMonth(d: DateTime)
    requires Valid(d)
    ensures Valid(FirstOfMonth(d)) && SameMonth(FirstOfMonth(d), d)
    ensures IsFirstOfMonth(FirstOfMonth(d)) && DateOf(FirstOfMonth(d)) == FirstOfMonth(d)
  {
  }

  /** Two dates give the same first of month exactly when they fall in the
      same month: the day and time of day are forgotten, nothing else. */
  lemma FirstOfMonthIdentifiesMonth(d: DateTime, e: DateTime)
    ensures FirstOfMonth(d) == FirstOfMonth(e) <==> SameMonth(d, e)
  {
  }

  /** Normalising twice is normalising once; a first of month is its own. */
  lemma FirstOfMonthIdempotent(d: DateTime)
    ensures FirstOfMonth(FirstOfMonth(d)) == FirstOfMonth(d)
    ensures IsFirstOfMonth(d) ==> FirstOfMonth(d) == d
  {
  }
}
