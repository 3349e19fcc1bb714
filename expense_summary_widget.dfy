/**
 * `ExpenseSummaryWidget`: the dashboard's total-expenses card, with the burn of the month's
 * budget, a bar, and a footer that shows what is left or by how much the budget is overrun.
 */
module ExpenseSummaryWidget {
  import MonthlySummaryWidgets
  import BurnRateWidget

  /** `burnPercentage`, computed as on the transactions page. */
  function BurnPercentage(totalExpenses: real, budgetTotal: real): (r: real)
    ensures r == MonthlySummaryWidgets.BurnPercentage(totalExpenses, budgetTotal)
    ensures budgetTotal <= 0.0 ==> r == 0.0
  {
    MonthlySummaryWidgets.BurnPercentage(totalExpenses, budgetTotal)
  }

  /** The classes of one of the three bands (`getColorClasses`). */
  datatype ColorClasses = ColorClasses(bg: string, text: string, border: string, progress: string)

  /** `getColorClasses`: green below 50, orange below 80, red from 80. */
  function GetColorClasses(burnPercentage: real): (c: ColorClasses)
    ensures burnPercentage < 50.0 ==> c.text == "text-green-400"
    ensures 50.0 <= burnPercentage < 80.0 ==> c.text == "text-orange-400"
    ensures burnPercentage >= 80.0 ==> c.text == "text-red-400"
  {
    if burnPercentage < 50.0 then
      ColorClasses("bg-green-500/10", "text-green-400", "border-green-500/30", "bg-green-500")
    else if burnPercentage < 80.0 then
      ColorClasses("bg-orange-500/10", "text-orange-400", "border-orange-500/30", "bg-orange-500")
    else
      ColorClasses("bg-red-500/10", "text-red-400", "border-red-500/30", "bg-red-500")
  }

  /** The dashboard card draws the same bands as the transactions page, in its own palette. */
  lemma SameBandsAsSummaryCard(p: real, q: real)
    requires MonthlySummaryWidgets.BandOf(p) == MonthlySummaryWidgets.BandOf(q)
    ensures GetColorClasses(p) == GetColorClasses(q)
  {
  }

  /** The alert icon, shown in the red band. */
  function ShowsAlert(burnPercentage: real): (r: bool)
    ensures r <==> GetColorClasses(burnPercentage).text == "text-red-400"
  {
    burnPercentage >= 80.0
  }

  /** The bar is always drawn, at most full. */
  function BarWidth(burnPercentage: real): (w: real)
    ensures w <= 100.0 && (w == burnPercentage <==> burnPercentage <= 100.0)
    ensures burnPercentage > 100.0 ==> w == 100.0
  {
    BurnRateWidget.BarWidth(burnPercentage)
  }

  /** The footer: what is left, or by how much spending passed the budget. */
  datatype Footer = Remaining(amount: real) | OverBy(amount: real)

  function FooterOf(totalExpenses: real, budgetTotal: real): (f: Footer)
    ensures f.Remaining? <==> budgetTotal > totalExpenses
    ensures f.amount >= 0.0
    ensures f.Remaining? ==> f.amount + totalExpenses == budgetTotal
    ensures f.OverBy? ==> f.amount + budgetTotal == totalExpenses
  {
    if budgetTotal > totalExpenses then Remaining(budgetTotal - totalExpenses) else OverBy(totalExpenses - budgetTotal)
  }

  /** Spending exactly the budget reads as "over budget by 0". */
  lemma ExactSpendIsOverByZero(budgetTotal: real)
    ensures FooterOf(budgetTotal, budgetTotal) == OverBy(0.0)
  {
  }

  /** With a positive budget, the footer shows a remainder exactly when the burn is below 100%. */
  lemma FooterAgreesWithBurn(totalExpenses: real, budgetTotal: real)
    requires budgetTotal > 0.0
    ensures FooterOf(totalExpenses, budgetTotal).Remaining? <==> BurnPercentage(totalExpenses, budgetTotal) < 100.0
  {
    MonthlySummaryWidgets.BurnThreshold(totalExpenses, budgetTotal, 100.0);
  }
}
