/**
 * `BurnRateWidget`: spending against budget per expense type for one month, with a bar, a
 * percentage badge and the overrun of each type, and buttons that step the month.
 */
module BurnRateWidget {
  import opened Wrappers
  import Collections
  import Calendar
  import TransactionApi
  import MonthYearSelector

  datatype BurnRateItem = BurnRateItem(
    expenseTypeId: string, name: string, budgetAmount: real, spentAmount: real, burnPercentage: real)

  /** The classes `getBurnColors` returns. */
  datatype BurnColors = BurnColors(bar: string, text: string, badge: string)

  /** `getBurnColors`: red from 80, orange from 50, green below. */
  function GetBurnColors(pct: real): (c: BurnColors)
    ensures pct >= 80.0 ==> c.bar == "bg-red-500"
    ensures 50.0 <= pct < 80.0 ==> c.bar == "bg-orange-500"
    ensures pct < 50.0 ==> c.bar == "bg-green-500"
  {
    if pct >= 80.0 then BurnColors("bg-red-500", "text-red-400", "bg-red-500/20 text-red-400")
    else if pct >= 50.0 then BurnColors("bg-orange-500", "text-orange-400", "bg-orange-500/20 text-orange-400")
    else BurnColors("bg-green-500", "text-green-400", "bg-green-500/20 text-green-400")
  }

  /** The bar width: the percentage, capped at a full bar. */
  function BarWidth(pct: real): (w: real)
    ensures w <= 100.0 && (w == pct <==> pct <= 100.0)
    ensures pct > 100.0 ==> w == 100.0
  {
    Collections.MinReal(pct, 100.0)
  }

  predicate IsOverBudget(item: BurnRateItem)
  {
    item.burnPercentage > 100.0
  }

  /** The badge: `+x%` with the excess over 100 when over budget, else the percentage itself. */
  datatype Badge = Badge(plus: bool, percent: real)

  function BadgeOf(item: BurnRateItem): (b: Badge)
    ensures b.plus <==> IsOverBudget(item)
    ensures b.plus ==> b.percent > 0.0 && b.percent + 100.0 == item.burnPercentage
    ensures !b.plus ==> b.percent == item.burnPercentage
  {
    if IsOverBudget(item) then Badge(true, item.burnPercentage - 100.0) else Badge(false, item.burnPercentage)
  }

  /** The "Over by" line, only for an item over budget. */
  function Overrun(item: BurnRateItem): (r: Option<real>)
    ensures r.Some? <==> IsOverBudget(item)
    ensures r.Some? ==> r.value + item.budgetAmount == item.spentAmount
  {
    if IsOverBudget(item) then Some(item.spentAmount - item.budgetAmount) else None
  }

  /** An item over budget has a full red bar. */
  lemma OverBudgetIsFullAndRed(item: BurnRateItem)
    requires IsOverBudget(item)
    ensures BarWidth(item.burnPercentage) == 100.0 && GetBurnColors(item.burnPercentage).bar == "bg-red-500"
  {
  }

  /** `isCurrentMonth`: the widget shows the month of now. */
  predicate IsCurrentMonth(month: int, year: int, now: Calendar.LocalDate)
  {
    year == now.year && month == now.month
  }

  /** The next button is disabled on the current month only. */
  function NextDisabled(month: int, year: int, now: Calendar.LocalDate): (r: bool)
    ensures r <==> year == now.year && month == now.month
  {
    IsCurrentMonth(month, year, now)
  }

  /**
   * Stepping forward one month at a time from a month not after now, the button never lets the
   * widget pass the current month.
   */
  lemma NextStaysWithinNow(month: int, year: int, now: Calendar.LocalDate)
    requires Calendar.IsMonth(month)
    requires year < now.year || (year == now.year && month <= now.month)
    requires !NextDisabled(month, year, now)
    ensures var next := MonthYearSelector.NextOf(MonthYearSelector.Selection(month, year));
      next.year < now.year || (next.year == now.year && next.month <= now.month)
  {
  }

  /** `${MONTH_NAMES[month - 1]} ${year}`; outside 1-12 the array lookup yields `undefined`. */
  function MonthLabel(month: int, year: int): (s: string)
    ensures Calendar.IsMonth(month) ==> s == MonthYearSelector.MonthNames[month - 1] + " " + TransactionApi.IntToString(year)
    ensures !Calendar.IsMonth(month) ==> s == "undefined " + TransactionApi.IntToString(year)
  {
    var name := if Calendar.IsMonth(month) then MonthYearSelector.MonthNames[month - 1] else "undefined";
    name + " " + TransactionApi.IntToString(year)
  }

  /** Different months of a year get different labels. */
  lemma MonthLabelsDiffer(m1: int, m2: int, year: int)
    requires Calendar.IsMonth(m1) && Calendar.IsMonth(m2) && m1 != m2
    ensures MonthLabel(m1, year) != MonthLabel(m2, year)
  {
    var n1, n2 := MonthYearSelector.MonthNames[m1 - 1], MonthYearSelector.MonthNames[m2 - 1];
    NamesDistinct(m1, m2);
    SameTailKeepsDifference(n1, n2, " ");
    SameTailKeepsDifference(n1 + " ", n2 + " ", TransactionApi.IntToString(year));
  }

  lemma SameTailKeepsDifference(n1: string, n2: string, tail: string)
    requires n1 != n2
    ensures n1 + tail != n2 + tail
  {
    var l1, l2 := n1 + tail, n2 + tail;
    if |n1| == |n2| {
      assert l1[..|n1|] == n1 && l2[..|n2|] == n2;
    } else {
      assert |l1| != |l2|;
    }
  }

  /** Length, first and third letter tell the twelve month names apart. */
  function NameKey(name: string): (int, char, char)
  {
    if |name| >= 3 then (|name|, name[0], name[2]) else (|name|, ' ', ' ')
  }

  lemma NamesDistinct(m1: int, m2: int)
    requires Calendar.IsMonth(m1) && Calendar.IsMonth(m2) && m1 != m2
    ensures MonthYearSelector.MonthNames[m1 - 1] != MonthYearSelector.MonthNames[m2 - 1]
  {
    var keys := [(7, 'J', 'n'), (8, 'F', 'b'), (5, 'M', 'r'), (5, 'A', 'r'), (3, 'M', 'y'), (4, 'J', 'n'),
                 (4, 'J', 'l'), (6, 'A', 'g'), (9, 'S', 'p'), (7, 'O', 't'), (8, 'N', 'v'), (8, 'D', 'c')];
    assert forall k :: 0 <= k < 12 ==> NameKey(MonthYearSelector.MonthNames[k]) == keys[k];
    assert keys[m1 - 1] != keys[m2 - 1];
  }
}
