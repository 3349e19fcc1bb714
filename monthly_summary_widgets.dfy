/**
 * `MonthlySummaryWidgets`: the four cards above the transactions list. The budget-burned card
 * colours its figure, background, border and bar by one band of the burn percentage.
 */
module MonthlySummaryWidgets {
  import opened Wrappers
  import Collections

  /** `burnPercentage`: the share of the budget spent, in percent; 0 without a positive budget. */
  function BurnPercentage(totalExpenses: real, budgetTotal: real): (r: real)
    ensures budgetTotal <= 0.0 ==> r == 0.0
    ensures budgetTotal > 0.0 ==> r * budgetTotal == totalExpenses * 100.0
  {
    if budgetTotal > 0.0 then (totalExpenses / budgetTotal) * 100.0 else 0.0
  }

  /** With a positive budget, the burn reaches a threshold exactly when spending reaches that share. */
  lemma BurnThreshold(totalExpenses: real, budgetTotal: real, t: real)
    requires budgetTotal > 0.0
    ensures BurnPercentage(totalExpenses, budgetTotal) >= t <==> totalExpenses * 100.0 >= t * budgetTotal
  {
    var r := BurnPercentage(totalExpenses, budgetTotal);
    ScaleOrder(r, t, budgetTotal);
  }

  lemma ScaleOrder(r: real, t: real, b: real)
    requires b > 0.0
    ensures r >= t <==> r * b >= t * b
  {
    if r < t {
      assert (t - r) * b > 0.0;
    }
  }

  /** Spending within a positive budget burns between 0 and 100 percent. */
  lemma BurnWithinBudget(totalExpenses: real, budgetTotal: real)
    requires budgetTotal > 0.0 && 0.0 <= totalExpenses <= budgetTotal
    ensures 0.0 <= BurnPercentage(totalExpenses, budgetTotal) <= 100.0
  {
    BurnThreshold(totalExpenses, budgetTotal, 0.0);
    BurnThreshold(totalExpenses, budgetTotal, 100.0);
  }

  /** `remainingBudget`, negative once spending passes the budget. */
  function RemainingBudget(totalExpenses: real, budgetTotal: real): (r: real)
    ensures r + totalExpenses == budgetTotal
    ensures r < 0.0 <==> totalExpenses > budgetTotal
  {
    budgetTotal - totalExpenses
  }

  /** The three bands of the burn percentage. */
  datatype Band = Green | Amber | Red

  function BandOf(percentage: real): (b: Band)
    ensures b == Green <==> percentage < 50.0
    ensures b == Red <==> percentage >= 80.0
  {
    if percentage < 50.0 then Green else if percentage < 80.0 then Amber else Red
  }

  /** `getBurnColor`. */
  function BurnColor(percentage: real): string
  {
    if percentage < 50.0 then "text-green-400"
    else if percentage < 80.0 then "text-amber-400"
    else "text-red-400"
  }

  /** `getBurnBgColor`. */
  function BurnBgColor(percentage: real): string
  {
    if percentage < 50.0 then "bg-green-500/10"
    else if percentage < 80.0 then "bg-amber-500/10"
    else "bg-red-500/10"
  }

  /** `getBurnBorderColor`. */
  function BurnBorderColor(percentage: real): string
  {
    if percentage < 50.0 then "border-green-500/20"
    else if percentage < 80.0 then "border-amber-500/20"
    else "border-red-500/20"
  }

  /** The bar's colour class. */
  function BarColor(percentage: real): string
  {
    if percentage < 50.0 then "bg-green-400"
    else if percentage < 80.0 then "bg-amber-400"
    else "bg-red-400"
  }

  /** The classes each band stands for. */
  datatype BandClasses = BandClasses(text: string, bg: string, border: string, bar: string)

  function ClassesOf(b: Band): BandClasses
  {
    match b
    case Green => BandClasses("text-green-400", "bg-green-500/10", "border-green-500/20", "bg-green-400")
    case Amber => BandClasses("text-amber-400", "bg-amber-500/10", "border-amber-500/20", "bg-amber-400")
    case Red => BandClasses("text-red-400", "bg-red-500/10", "border-red-500/20", "bg-red-400")
  }

  /** Figure, background, border and bar are all coloured by the same band. */
  lemma ColoursFollowOneBand(percentage: real)
    ensures ClassesOf(BandOf(percentage))
      == BandClasses(BurnColor(percentage), BurnBgColor(percentage), BurnBorderColor(percentage), BarColor(percentage))
  {
  }

  /** The alert icon. */
  function ShowsAlert(percentage: real): (r: bool)
    ensures r <==> BandOf(percentage) == Red
  {
    percentage >= 80.0
  }

  /** The progress bar's width in percent; there is no bar without a positive budget. */
  function BarWidth(budgetTotal: real, percentage: real): (w: Option<real>)
    ensures w.None? <==> budgetTotal <= 0.0
    ensures w.Some? ==> w.value <= 100.0 && (w.value == percentage <==> percentage <= 100.0)
    ensures w.Some? && percentage > 100.0 ==> w.value == 100.0
  {
    if budgetTotal > 0.0 then Some(Collections.MinReal(percentage, 100.0)) else None
  }

  /** Overspending fills the bar and raises the alert. */
  lemma OverspendingFillsBar(totalExpenses: real, budgetTotal: real)
    requires budgetTotal > 0.0 && totalExpenses >= budgetTotal
    ensures var p := BurnPercentage(totalExpenses, budgetTotal);
      BarWidth(budgetTotal, p) == Some(100.0) && ShowsAlert(p)
  {
    BurnThreshold(totalExpenses, budgetTotal, 100.0);
  }
}
