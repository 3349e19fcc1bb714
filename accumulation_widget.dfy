/**
 * `AccumulationWidget`: for each accumulating expense type, the pool carried forward from
 * unspent months, how much of it this month used, and what is left, for one month at a time.
 */
module AccumulationWidget {
  import Collections
  import Calendar
  import BurnRateWidget

  datatype AccumulationItem = AccumulationItem(
    expenseTypeId: string, name: string, monthlyBudget: real, accumulatedAmount: real,
    spentThisMonth: real, remaining: real)

  /** `usePct`: the share of the pool spent this month, capped at 100; 0 for an empty or negative pool. */
  function UsePct(item: AccumulationItem): (r: real)
    ensures item.accumulatedAmount <= 0.0 ==> r == 0.0
    ensures r <= 100.0
    ensures item.accumulatedAmount > 0.0 ==>
      (r == 100.0 <==> item.spentThisMonth >= item.accumulatedAmount)
    ensures item.accumulatedAmount > 0.0 && item.spentThisMonth < item.accumulatedAmount ==>
      r * item.accumulatedAmount == item.spentThisMonth * 100.0
    ensures item.spentThisMonth >= 0.0 ==> r >= 0.0
  {
    if item.accumulatedAmount > 0.0 then
      var share := (item.spentThisMonth / item.accumulatedAmount) * 100.0;
      ShareOrder(item.spentThisMonth, item.accumulatedAmount, share);
      Collections.MinReal(share, 100.0)
    else 0.0
  }

  lemma ShareOrder(spent: real, pool: real, share: real)
    requires pool > 0.0 && share * pool == spent * 100.0
    ensures share >= 100.0 <==> spent >= pool
    ensures spent >= 0.0 ==> share >= 0.0
  {
    if share < 100.0 {
      assert (100.0 - share) * pool > 0.0;
    }
    if share >= 100.0 {
      assert (share - 100.0) * pool >= 0.0;
    }
    if share < 0.0 {
      assert share * pool < 0.0;
    }
  }

  /** `isPositive`: the pool is not overdrawn. */
  predicate IsPositive(item: AccumulationItem)
  {
    item.remaining >= 0.0
  }

  /** The badge: a '+' for a pool that is not overdrawn, then the size of what is left. */
  datatype Badge = Badge(plus: bool, magnitude: real)

  function BadgeOf(item: AccumulationItem): (b: Badge)
    ensures b.plus <==> IsPositive(item)
    ensures b.magnitude >= 0.0
    ensures (if b.plus then b.magnitude else -b.magnitude) == item.remaining
  {
    Badge(IsPositive(item), if item.remaining >= 0.0 then item.remaining else -item.remaining)
  }

  /** The badge names the remainder exactly: two items with the same badge have the same remainder. */
  lemma BadgeDeterminesRemaining(a: AccumulationItem, b: AccumulationItem)
    requires BadgeOf(a) == BadgeOf(b)
    ensures a.remaining == b.remaining
  {
    assert (if BadgeOf(a).plus then BadgeOf(a).magnitude else -BadgeOf(a).magnitude) == a.remaining;
  }

  /** The bar's colour follows the sign of the remainder. */
  function BarColor(item: AccumulationItem): (c: string)
    ensures c == "bg-emerald-500" <==> IsPositive(item)
  {
    if IsPositive(item) then "bg-emerald-500" else "bg-red-500"
  }

  /** The next button is disabled on the current month only, as on the burn rate widget. */
  function NextDisabled(month: int, year: int, now: Calendar.LocalDate): (r: bool)
    ensures r <==> year == now.year && month == now.month
    ensures r == BurnRateWidget.NextDisabled(month, year, now)
  {
    year == now.year && month == now.month
  }

  /** The month label; `MONTH_NAMES[month - 1]` names a month only for 1-12. */
  function MonthLabel(month: int, year: int): (s: string)
    ensures s == BurnRateWidget.MonthLabel(month, year)
    ensures !Calendar.IsMonth(month) ==> s[..9] == "undefined"
  {
    BurnRateWidget.MonthLabel(month, year)
  }
}
