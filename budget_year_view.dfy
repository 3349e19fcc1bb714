/**
 * `BudgetYearView`: the list of a user's budgets, one card per year, with the rule for showing
 * the create button, each card's figures, and the two-step delete confirmation.
 */
module BudgetYearView {
  import opened Wrappers
  import opened BudgetApi
  import Collections
  import BudgetService

  /** `budgets.some(b => b.year === year)`. */
  predicate HasYear(budgets: seq<ViewBudget>, year: int)
  {
    exists i :: 0 <= i < |budgets| && budgets[i].year == year
  }

  /** `canCreateBudget`: no budget for this year yet, or December and none for next year. */
  function CanCreateBudget(budgets: seq<ViewBudget>, currentYear: int, currentMonth: int): (r: bool)
    ensures r <==> !HasYear(budgets, currentYear) || (currentMonth == 12 && !HasYear(budgets, currentYear + 1))
  {
    var hasCurrentYearBudget := HasYear(budgets, currentYear);
    var hasNextYearBudget := HasYear(budgets, currentYear + 1);
    !hasCurrentYearBudget || (currentMonth == 12 && !hasNextYearBudget)
  }

  /**
   * The button is shown exactly when the server would accept a new budget for some year: one it
   * allows now and that the user has no budget for yet.
   */
  lemma CanCreateIffServerAcceptsSomeYear(budgets: seq<ViewBudget>, currentYear: int, currentMonth: int)
    ensures CanCreateBudget(budgets, currentYear, currentMonth) <==>
      exists y :: BudgetService.CreationCheck(BudgetService.Today(currentYear, currentMonth), y, HasYear(budgets, y)).None?
  {
    var today := BudgetService.Today(currentYear, currentMonth);
    if CanCreateBudget(budgets, currentYear, currentMonth) {
      var y := if !HasYear(budgets, currentYear) then currentYear else currentYear + 1;
      assert BudgetService.CreationCheck(today, y, HasYear(budgets, y)).None?;
    }
  }

  /** The months a one-time item is for, leaving out `null` and 0 (`filter(Boolean)`). */
  function OneTimeMonthSet(items: seq<ViewItem>): (r: set<int>)
    ensures forall m :: m in r <==>
      m != 0 && exists x :: x in items && x.isOneTime && x.applicableMonth == Some(m)
  {
    var months := set x | x in OneTimeItems(items) && x.applicableMonth.Some? && x.applicableMonth.value != 0 :: x.applicableMonth.value;
    forall m | m != 0 && exists x :: x in items && x.isOneTime && x.applicableMonth == Some(m)
      ensures m in months
    {
      var x :| x in items && x.isOneTime && x.applicableMonth == Some(m);
      assert x in OneTimeItems(items);
    }
    months
  }

  /** `monthsWithOneTime`: each such month once, in ascending order. */
  function MonthsWithOneTime(items: seq<ViewItem>): (r: seq<int>)
    ensures forall i, j :: 0 <= i < j < |r| ==> r[i] < r[j]
    ensures forall m :: m in r <==>
      m != 0 && exists x :: x in items && x.isOneTime && x.applicableMonth == Some(m)
  {
    Collections.Ascending(OneTimeMonthSet(items))
  }

  /** The figures on one budget card. */
  datatype Card = Card(recurringCount: nat, oneTimeCount: nat, recurringTotal: real, months: seq<int>)

  function CardOf(budget: ViewBudget): (c: Card)
    ensures c.recurringCount + c.oneTimeCount == |budget.items|
    ensures c.recurringTotal == AmountTotal(RecurringItems(budget.items))
    ensures c.months == MonthsWithOneTime(budget.items)
  {
    ItemsPartition(budget.items);
    Card(|RecurringItems(budget.items)|, |OneTimeItems(budget.items)|,
         AmountTotal(RecurringItems(budget.items)), MonthsWithOneTime(budget.items))
  }

  /** Which of a card's buttons are enabled: edit and delete (and its confirmation) only for this or a later year. */
  datatype Actions = Actions(editEnabled: bool, deleteEnabled: bool, confirmEnabled: bool)

  function ActionsOf(year: int, currentYear: int): (a: Actions)
    ensures a.editEnabled <==> year >= currentYear
    ensures a.deleteEnabled == a.editEnabled && a.confirmEnabled == a.editEnabled
  {
    var enabled := !IsPastYear(year, currentYear);
    Actions(enabled, enabled, enabled)
  }

  /** What can happen to the pending delete confirmation. */
  datatype ConfirmEvent =
    | ClickDelete(year: int)
    | ClickCancel
    | DeleteFinished(succeeded: bool)

  /**
   * `deleteConfirm`: the one year waiting for confirmation, if any. Delete asks for it (a
   * disabled button cannot be clicked), cancel clears it, and so does a delete that succeeds;
   * a failed delete leaves it as it was.
   */
  function NextConfirm(pending: Option<int>, event: ConfirmEvent, currentYear: int): (r: Option<int>)
    ensures event.ClickCancel? ==> r.None?
    ensures event.DeleteFinished? ==> (r.None? <==> event.succeeded || pending.None?)
    ensures event.ClickDelete? ==>
      r == (if ActionsOf(event.year, currentYear).deleteEnabled then Some(event.year) else pending)
  {
    match event
    case ClickDelete(year) => if ActionsOf(year, currentYear).deleteEnabled then Some(year) else pending
    case ClickCancel => None
    case DeleteFinished(succeeded) => if succeeded then None else pending
  }

  /** A pending year is never a past one: the confirm step is only reachable where delete is enabled. */
  lemma PendingNeverPast(pending: Option<int>, event: ConfirmEvent, currentYear: int)
    requires pending.Some? ==> !IsPastYear(pending.value, currentYear)
    ensures var r := NextConfirm(pending, event, currentYear);
      r.Some? ==> !IsPastYear(r.value, currentYear)
  {
  }

  /** Only cards of the pending year show the confirmation, so with distinct years at most one does. */
  lemma AtMostOneConfirming(budgets: seq<ViewBudget>, pending: Option<int>, i: int, j: int)
    requires 0 <= i < |budgets| && 0 <= j < |budgets|
    requires forall a, b :: 0 <= a < b < |budgets| ==> budgets[a].year != budgets[b].year
    requires pending == Some(budgets[i].year) && pending == Some(budgets[j].year)
    ensures i == j
  {
  }
}
