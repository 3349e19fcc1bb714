/**
 * ISO-8601 calendar dates as used by `java.time.LocalDate`: the proleptic Gregorian
 * leap-year rule, month lengths, day-of-month validity, and the inclusive month and
 * year windows the transaction queries are built from.
 */
module Calendar {
  import opened Wrappers

  /** `IsoChronology.isLeapYear`: divisible by 4, and not by 100 unless by 400. */
  predicate IsLeapYear(year: int)
  {
    year % 4 == 0 && (year % 100 != 0 || year % 400 == 0)
  }

  predicate IsMonth(month: int)
  {
    1 <= month <= 12
  }

  /** `YearMonth.lengthOfMonth`. */
  function LengthOfMonth(year: int, month: int): (n: int)
    requires IsMonth(month)
    ensures 28 <= n <= 31
    ensures month == 2 ==> (n == 29 <==> IsLeapYear(year))
    ensures month != 2 ==> (n == 30 <==> month in {4, 6, 9, 11})
  {
    if month == 2 then (if IsLeapYear(year) then 29 else 28)
    else if month == 4 || month == 6 || month == 9 || month == 11 then 30
    else 31
  }

  datatype Date = Date(year: int, month: int, day: int)

  predicate IsValidDate(d: Date)
  {
    IsMonth(d.month) && 1 <= d.day <= LengthOfMonth(d.year, d.month)
  }

  /** A `LocalDate`: a year, month and day that name an existing day. */
  type LocalDate = d: Date | IsValidDate(d) witness Date(2000, 1, 1)

  /** `LocalDate.of(year, month, day)`, which throws `DateTimeException` on a non-existent day. */
  function DateOf(year: int, month: int, day: int): (r: Option<LocalDate>)
    ensures r.Some? <==> IsValidDate(Date(year, month, day))
    ensures r.Some? ==> r.value == Date(year, month, day)
  {
    var d := Date(year, month, day);
    if IsValidDate(d) then var local: LocalDate := d; Some(local) else None
  }

  /** Chronological order, `!a.isAfter(b)`. */
  predicate NotAfter(a: Date, b: Date)
  {
    a.year < b.year
    || (a.year == b.year && (a.month < b.month || (a.month == b.month && a.day <= b.day)))
  }

  lemma NotAfterTotal(a: Date, b: Date)
    ensures NotAfter(a, b) || NotAfter(b, a)
    ensures NotAfter(a, b) && NotAfter(b, a) ==> a == b
  {
  }

  /** `LocalDate.of(year, month, 1)`. */
  function FirstOfMonth(year: int, month: int): (d: LocalDate)
    requires IsMonth(month)
    ensures d.year == year && d.month == month
    ensures forall e: LocalDate :: e.year == year && e.month == month ==> NotAfter(d, e)
  {
    Date(year, month, 1)
  }

  /** `start.withDayOfMonth(start.lengthOfMonth())`. */
  function LastOfMonth(year: int, month: int): (d: LocalDate)
    requires IsMonth(month)
    ensures d.year == year && d.month == month
    ensures forall e: LocalDate :: e.year == year && e.month == month ==> NotAfter(e, d)
  {
    Date(year, month, LengthOfMonth(year, month))
  }

  /** The inclusive range `[first, last]` of a month holds exactly that month's days. */
  lemma InMonthWindow(d: LocalDate, year: int, month: int)
    requires IsMonth(month)
    ensures NotAfter(FirstOfMonth(year, month), d) && NotAfter(d, LastOfMonth(year, month))
      <==> d.year == year && d.month == month
  {
  }

  /** The inclusive range January 1 to December 31 holds exactly that year's days. */
  lemma InYearWindow(d: LocalDate, year: int)
    ensures NotAfter(Date(year, 1, 1), d) && NotAfter(d, Date(year, 12, 31)) <==> d.year == year
  {
  }
}
