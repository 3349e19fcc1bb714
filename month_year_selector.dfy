/**
 * `MonthYearSelector`: steps the selected month back and forth, never past the month of
 * `maxDate` (by default now), and offers a shortcut back to the current month.
 */
module MonthYearSelector {
  import opened Wrappers
  import Calendar

  /** The selection, month 1-12 and year, as `onMonthChange` receives it. */
  datatype Selection = Selection(month: int, year: int)

  /** A local moment: a day and the milliseconds since its midnight. */
  datatype Moment = Moment(day: Calendar.LocalDate, millis: int)

  predicate IsMoment(m: Moment)
  {
    0 <= m.millis < 86400000
  }

  /** `new Date(year, month - 1, 1) > maxDate`: midnight on the 1st is later than the moment. */
  predicate FirstIsAfter(s: Selection, maxDate: Moment)
    requires Calendar.IsMonth(s.month)
  {
    var first := Calendar.FirstOfMonth(s.year, s.month);
    !Calendar.NotAfter(first, maxDate.day) || (first == maxDate.day && 0 > maxDate.millis)
  }

  /** Only the day of `maxDate` matters: midnight is never after a moment of the same day. */
  lemma FirstIsAfterIsDayOrder(s: Selection, maxDate: Moment)
    requires Calendar.IsMonth(s.month) && IsMoment(maxDate)
    ensures FirstIsAfter(s, maxDate) <==> !Calendar.NotAfter(Calendar.FirstOfMonth(s.year, s.month), maxDate.day)
  {
  }

  /** `handlePrevMonth`: January goes back to December of the year before. */
  function Prev(s: Selection): (r: Selection)
    ensures s.month == 1 ==> r == Selection(12, s.year - 1)
    ensures s.month != 1 ==> r == Selection(s.month - 1, s.year)
    ensures Calendar.IsMonth(s.month) ==> Calendar.IsMonth(r.month)
  {
    if s.month == 1 then Selection(12, s.year - 1) else Selection(s.month - 1, s.year)
  }

  /** The month `handleNextMonth` and `isNextDisabled` look at: December goes on to January of the next year. */
  function NextOf(s: Selection): (r: Selection)
    ensures s.month == 12 ==> r == Selection(1, s.year + 1)
    ensures s.month != 12 ==> r == Selection(s.month + 1, s.year)
    ensures Calendar.IsMonth(s.month) ==> Calendar.IsMonth(r.month)
  {
    var nextMonth := if s.month == 12 then 1 else s.month + 1;
    var nextYear := if s.month == 12 then s.year + 1 else s.year;
    Selection(nextMonth, nextYear)
  }

  /** `isNextDisabled`: the next month lies beyond the month of `maxDate`. */
  predicate IsNextDisabled(s: Selection, maxDate: Moment): (r: bool)
    requires Calendar.IsMonth(s.month)
    ensures IsMoment(maxDate) ==>
      (r <==> var next := NextOf(s);
        next.year > maxDate.day.year || (next.year == maxDate.day.year && next.month > maxDate.day.month))
  {
    FirstIsAfter(NextOf(s), maxDate)
  }

  /** `handleNextMonth`: the selection passed to `onMonthChange`, or `None` when nothing is called. */
  function HandleNext(s: Selection, maxDate: Moment): (r: Option<Selection>)
    requires Calendar.IsMonth(s.month)
    ensures r.None? <==> IsNextDisabled(s, maxDate)
    ensures r.Some? ==> r.value == NextOf(s) && Calendar.IsMonth(r.value.month)
  {
    var next := NextOf(s);
    if FirstIsAfter(next, maxDate) then None else Some(next)
  }

  /** Going back a month and then forward again returns to the start, unless the start is itself beyond `maxDate`. */
  lemma PrevThenNext(s: Selection, maxDate: Moment)
    requires Calendar.IsMonth(s.month)
    requires !FirstIsAfter(s, maxDate)
    ensures HandleNext(Prev(s), maxDate) == Some(s)
  {
  }

  /** A step forward that happens can always be undone by a step back. */
  lemma NextThenPrev(s: Selection, maxDate: Moment)
    requires Calendar.IsMonth(s.month)
    requires HandleNext(s, maxDate).Some?
    ensures Prev(HandleNext(s, maxDate).value) == s
  {
  }

  /** With `maxDate` in the selected month, the next month is out of reach. */
  lemma NextDisabledInMaxMonth(maxDate: Moment)
    requires IsMoment(maxDate)
    ensures IsNextDisabled(Selection(maxDate.day.month, maxDate.day.year), maxDate)
  {
  }

  /** A selection the selector reaches by stepping forward never passes the month of `maxDate`. */
  lemma NextNeverPassesMax(s: Selection, maxDate: Moment)
    requires Calendar.IsMonth(s.month) && IsMoment(maxDate)
    requires HandleNext(s, maxDate).Some?
    ensures var t := HandleNext(s, maxDate).value;
      t.year < maxDate.day.year || (t.year == maxDate.day.year && t.month <= maxDate.day.month)
  {
  }

  /** `isCurrentMonth`, against the month and year of now. */
  predicate IsCurrentMonth(s: Selection, now: Calendar.LocalDate)
  {
    s.month == now.month && s.year == now.year
  }

  /** Whether the "Current" shortcut is shown. */
  function ShowsCurrentShortcut(s: Selection, now: Calendar.LocalDate): (r: bool)
    ensures r <==> !(s.month == now.month && s.year == now.year)
  {
    !IsCurrentMonth(s, now)
  }

  /** `goToCurrentMonth`: after it, the shortcut is hidden. */
  function GoToCurrentMonth(now: Calendar.LocalDate): (r: Selection)
    ensures IsCurrentMonth(r, now) && !ShowsCurrentShortcut(r, now)
    ensures Calendar.IsMonth(r.month)
  {
    Selection(now.month, now.year)
  }

  const MonthNames := ["January", "February", "March", "April", "May", "June",
                       "July", "August", "September", "October", "November", "December"]

  /** `MONTHS[selectedMonth - 1]`, the label shown. */
  function MonthName(month: int): (r: string)
    requires Calendar.IsMonth(month)
    ensures month == 1 ==> r == "January"
    ensures month == 12 ==> r == "December"
  {
    MonthNames[month - 1]
  }
}
