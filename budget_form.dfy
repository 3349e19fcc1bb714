/**
 * `BudgetForm`: the create/edit dialog for a yearly budget. Items are edited as a list keyed by
 * a temporary id; the dialog shows the recurring total against the monthly salary and checks
 * the list (and, when creating, the year) before sending it.
 */
module BudgetForm {
  import opened Wrappers
  import BudgetService

  /**
   * One row of the form. `amount` is `Number(input)`, which is `NaN` (here `None`) for text that
   * is not a number; `applicableMonth` is `null`/`undefined` (here `None`) or a month number,
   * where 0 is what the empty choice of the month select gives.
   */
  datatype FormItem = FormItem(
    tempId: string,
    expenseTypeId: string,
    amount: Option<real>,
    isOneTime: bool,
    applicableMonth: Option<int>)

  /** `Number(item.amount || 0)`: `NaN` and 0 count as 0. */
  function CountedAmount(item: FormItem): real
  {
    item.amount.GetOr(0.0)
  }

  /** A month is truthy when it is set and not 0. */
  predicate HasMonth(item: FormItem)
  {
    item.applicableMonth.Some? && item.applicableMonth.value != 0
  }

  /** `recurringTotal`: the counted amounts of the items that are not one-time. */
  function RecurringTotal(items: seq<FormItem>): (r: real)
    ensures (forall i :: 0 <= i < |items| ==> CountedAmount(items[i]) >= 0.0) ==> r >= 0.0
  {
    if items == [] then 0.0
    else
      var last := items[|items| - 1];
      RecurringTotal(items[..|items| - 1]) + (if last.isOneTime then 0.0 else CountedAmount(last))
  }

  lemma {:induction false} RecurringTotalAppend(xs: seq<FormItem>, ys: seq<FormItem>)
    ensures RecurringTotal(xs + ys) == RecurringTotal(xs) + RecurringTotal(ys)
    decreases |ys|
  {
    if ys == [] {
      assert xs + ys == xs;
    } else {
      var init := ys[..|ys| - 1];
      assert (xs + ys)[..|xs + ys| - 1] == xs + init;
      assert (xs + ys)[|xs + ys| - 1] == ys[|ys| - 1];
      RecurringTotalAppend(xs, init);
    }
  }

  /** One-time items never contribute to the recurring total. */
  lemma {:induction false} OneTimeItemsDoNotCount(items: seq<FormItem>)
    requires forall i :: 0 <= i < |items| ==> items[i].isOneTime
    ensures RecurringTotal(items) == 0.0
  {
    if items != [] {
      OneTimeItemsDoNotCount(items[..|items| - 1]);
    }
  }

  /** `percentageOfSalary`: 0 without a salary, otherwise the total as a percentage of it. */
  function PercentageOfSalary(recurringTotal: real, monthlySalary: real): (r: real)
    ensures monthlySalary == 0.0 ==> r == 0.0
    ensures monthlySalary != 0.0 ==> r * monthlySalary == recurringTotal * 100.0
    ensures monthlySalary > 0.0 && 0.0 <= recurringTotal <= monthlySalary ==> 0.0 <= r <= 100.0
  {
    if monthlySalary == 0.0 then 0.0 else (recurringTotal / monthlySalary) * 100.0
  }

  /** `remainingAmount`: what the salary leaves after the recurring total; negative when over. */
  function RemainingAmount(monthlySalary: real, recurringTotal: real): (r: real)
    ensures r + recurringTotal == monthlySalary
    ensures r >= 0.0 <==> recurringTotal <= monthlySalary
  {
    monthlySalary - recurringTotal
  }

  /** `addRecurring`: a new empty recurring row at the end. */
  function AddRecurring(items: seq<FormItem>, tempId: string): (r: seq<FormItem>)
    ensures |r| == |items| + 1 && r[..|items|] == items
    ensures r[|items|] == FormItem(tempId, "", Some(0.0), false, None)
  {
    items + [FormItem(tempId, "", Some(0.0), false, None)]
  }

  /** `addOneTime`: a new empty one-time row at the end, for the current month. */
  function AddOneTime(items: seq<FormItem>, tempId: string, currentMonth: int): (r: seq<FormItem>)
    ensures |r| == |items| + 1 && r[..|items|] == items
    ensures r[|items|] == FormItem(tempId, "", Some(0.0), true, Some(currentMonth))
  {
    items + [FormItem(tempId, "", Some(0.0), true, Some(currentMonth))]
  }

  /** Adding a row of either kind leaves the recurring total as it was. */
  lemma AddingKeepsTotal(items: seq<FormItem>, tempId: string, currentMonth: int)
    ensures RecurringTotal(AddRecurring(items, tempId)) == RecurringTotal(items)
    ensures RecurringTotal(AddOneTime(items, tempId, currentMonth)) == RecurringTotal(items)
  {
    assert AddRecurring(items, tempId)[..|items|] == items;
    assert AddOneTime(items, tempId, currentMonth)[..|items|] == items;
  }

  /** `removeItem`: every row with the id goes; the others stay, in order. */
  function RemoveItem(items: seq<FormItem>, tempId: string): (r: seq<FormItem>)
    ensures forall x :: x in r <==> x in items && x.tempId != tempId
    ensures |r| <= |items|
  {
    if items == [] then []
    else
      var last := items[|items| - 1];
      assert items == items[..|items| - 1] + [last];
      RemoveItem(items[..|items| - 1], tempId) + (if last.tempId == tempId then [] else [last])
  }

  /** Removing from a concatenation removes from each part: the kept rows keep their order. */
  lemma {:induction false} RemoveItemAppend(xs: seq<FormItem>, ys: seq<FormItem>, tempId: string)
    ensures RemoveItem(xs + ys, tempId) == RemoveItem(xs, tempId) + RemoveItem(ys, tempId)
    decreases |ys|
  {
    if ys == [] {
      assert xs + ys == xs;
    } else {
      var init := ys[..|ys| - 1];
      assert (xs + ys)[..|xs + ys| - 1] == xs + init;
      assert (xs + ys)[|xs + ys| - 1] == ys[|ys| - 1];
      RemoveItemAppend(xs, init, tempId);
    }
  }

  /** Removing an id no row carries changes nothing. */
  lemma {:induction false} RemoveAbsentItem(items: seq<FormItem>, tempId: string)
    requires forall i :: 0 <= i < |items| ==> items[i].tempId != tempId
    ensures RemoveItem(items, tempId) == items
  {
    if items != [] {
      RemoveAbsentItem(items[..|items| - 1], tempId);
      assert items == items[..|items| - 1] + [items[|items| - 1]];
    }
  }

  /** Removing the one row with an id leaves the rows around it, in order. */
  lemma RemoveUniqueItem(before: seq<FormItem>, item: FormItem, after: seq<FormItem>)
    requires forall i :: 0 <= i < |before| ==> before[i].tempId != item.tempId
    requires forall i :: 0 <= i < |after| ==> after[i].tempId != item.tempId
    ensures RemoveItem(before + [item] + after, item.tempId) == before + after
  {
    var t := item.tempId;
    assert RemoveItem([item], t) == [] by {
      assert [item][..0] == [];
    }
    calc {
      RemoveItem(before + [item] + after, t);
      { RemoveItemAppend(before + [item], after, t); }
      RemoveItem(before + [item], t) + RemoveItem(after, t);
      { RemoveItemAppend(before, [item], t); }
      RemoveItem(before, t) + [] + RemoveItem(after, t);
      { RemoveAbsentItem(before, t); RemoveAbsentItem(after, t); }
      before + [] + after;
      { assert before + [] == before; }
      before + after;
    }
  }

  /** Removing a row lowers the recurring total by exactly what that row counted for. */
  lemma RemoveUniqueItemTotal(before: seq<FormItem>, item: FormItem, after: seq<FormItem>)
    requires forall i :: 0 <= i < |before| ==> before[i].tempId != item.tempId
    requires forall i :: 0 <= i < |after| ==> after[i].tempId != item.tempId
    ensures RecurringTotal(before + [item] + after)
      == RecurringTotal(RemoveItem(before + [item] + after, item.tempId))
         + (if item.isOneTime then 0.0 else CountedAmount(item))
  {
    RemoveUniqueItem(before, item, after);
    RecurringTotalAppend(before + [item], after);
    RecurringTotalAppend(before, [item]);
    RecurringTotalAppend(before, after);
    assert [item][..0] == [];
  }

  /**
   * The partial rows `updateItem` is called with: a new expense type, a new amount or a new
   * month; an absent field is not touched.
   */
  datatype ItemUpdate = ItemUpdate(
    expenseTypeId: Option<string>,
    amount: Option<Option<real>>,
    applicableMonth: Option<Option<int>>)

  /** `{ ...item, ...updates }`. */
  function Merge(item: FormItem, u: ItemUpdate): (r: FormItem)
    ensures r.tempId == item.tempId && r.isOneTime == item.isOneTime
    ensures r.expenseTypeId == u.expenseTypeId.GetOr(item.expenseTypeId)
    ensures r.amount == u.amount.GetOr(item.amount)
    ensures r.applicableMonth == u.applicableMonth.GetOr(item.applicableMonth)
  {
    item.(expenseTypeId := u.expenseTypeId.GetOr(item.expenseTypeId),
          amount := u.amount.GetOr(item.amount),
          applicableMonth := u.applicableMonth.GetOr(item.applicableMonth))
  }

  /** `updateItem`: the rows with the id take the update; every other row is as it was. */
  function UpdateItem(items: seq<FormItem>, tempId: string, u: ItemUpdate): (r: seq<FormItem>)
    ensures |r| == |items|
    ensures forall i :: 0 <= i < |items| && items[i].tempId == tempId ==> r[i] == Merge(items[i], u)
    ensures forall i :: 0 <= i < |items| && items[i].tempId != tempId ==> r[i] == items[i]
  {
    if items == [] then []
    else
      var last := items[|items| - 1];
      UpdateItem(items[..|items| - 1], tempId, u) + [if last.tempId == tempId then Merge(last, u) else last]
  }

  /** An update keeps every row's id and kind, so it never adds, drops or reorders rows. */
  lemma UpdateKeepsRows(items: seq<FormItem>, tempId: string, u: ItemUpdate)
    ensures forall i :: 0 <= i < |items| ==>
      UpdateItem(items, tempId, u)[i].tempId == items[i].tempId
      && UpdateItem(items, tempId, u)[i].isOneTime == items[i].isOneTime
  {
  }

  /** An update that sets no field leaves the list as it was. */
  lemma EmptyUpdateChangesNothing(items: seq<FormItem>, tempId: string)
    ensures UpdateItem(items, tempId, ItemUpdate(None, None, None)) == items
  {
    var r := UpdateItem(items, tempId, ItemUpdate(None, None, None));
    assert forall i :: 0 <= i < |items| ==> r[i] == items[i];
  }

  const NoItems := "Add at least one budget item"
  const NoExpenseType := "Select an expense type for all items"
  const AmountNotPositive := "All amounts must be greater than 0"
  const OneTimeWithoutMonth := "One-time expenses must have a month selected"
  const PastYear := "Cannot create budgets for past years"
  const NextYearOnlyInDecember := "Can only create next year budgets in December"

  /**
   * The first check a row fails: no expense type, then an amount that is not above 0, then a
   * one-time row without a month. `Number(NaN) <= 0` is false, so a `NaN` amount passes.
   */
  function ItemError(item: FormItem): (e: Option<string>)
    ensures e.None? <==>
      item.expenseTypeId != "" && (item.amount.Some? ==> item.amount.value > 0.0) && (item.isOneTime ==> HasMonth(item))
    ensures item.expenseTypeId == "" ==> e == Some(NoExpenseType)
  {
    if item.expenseTypeId == "" then Some(NoExpenseType)
    else if item.amount.Some? && item.amount.value <= 0.0 then Some(AmountNotPositive)
    else if item.isOneTime && !HasMonth(item) then Some(OneTimeWithoutMonth)
    else None
  }

  /** The error of the first row that has one, in list order. */
  function FirstItemError(items: seq<FormItem>): (e: Option<string>)
    ensures e.None? <==> forall i :: 0 <= i < |items| ==> ItemError(items[i]).None?
  {
    if items == [] then None
    else if ItemError(items[0]).Some? then ItemError(items[0])
    else
      assert forall i :: 1 <= i < |items| ==> items[i] == items[1..][i - 1];
      FirstItemError(items[1..])
  }

  /** The reported error is that of the first failing row: the rows before it all pass. */
  lemma {:induction false} FirstItemErrorIsFirst(items: seq<FormItem>, k: int)
    requires 0 <= k < |items| && ItemError(items[k]).Some?
    requires forall i :: 0 <= i < k ==> ItemError(items[i]).None?
    ensures FirstItemError(items) == ItemError(items[k])
  {
    if k > 0 {
      assert forall i :: 0 <= i < k - 1 ==> items[1..][i] == items[i + 1];
      FirstItemErrorIsFirst(items[1..], k - 1);
    }
  }

  /** The year checks of create mode: no past year, and a later year only in December. */
  function YearError(year: int, currentYear: int, currentMonth: int): (e: Option<string>)
    ensures e.None? <==> year == currentYear || (year > currentYear && currentMonth == 12)
  {
    if year < currentYear then Some(PastYear)
    else if year > currentYear && currentMonth != 12 then Some(NextYearOnlyInDecember)
    else None
  }

  /** What `validateForm` returns: the list checks, then, only when creating, the year checks. */
  function FormError(items: seq<FormItem>, isEditMode: bool, year: int, currentYear: int, currentMonth: int): Option<string>
  {
    if items == [] then Some(NoItems)
    else if FirstItemError(items).Some? then FirstItemError(items)
    else if !isEditMode then YearError(year, currentYear, currentMonth)
    else None
  }

  /** `validateForm`: walk the rows and return at the first failure. */
  method ValidateForm(items: seq<FormItem>, isEditMode: bool, year: int, currentYear: int, currentMonth: int)
    returns (e: Option<string>)
    ensures e == FormError(items, isEditMode, year, currentYear, currentMonth)
  {
    if |items| == 0 {
      return Some(NoItems);
    }
    var i := 0;
    while i < |items|
      invariant 0 <= i <= |items|
      invariant FirstItemError(items) == FirstItemError(items[i..])
    {
      var err := ItemError(items[i]);
      if err.Some? {
        return err;
      }
      assert items[i..][1..] == items[i + 1..];
      i := i + 1;
    }
    if !isEditMode {
      if year < currentYear {
        return Some(PastYear);
      }
      if year > currentYear && currentMonth != 12 {
        return Some(NextYearOnlyInDecember);
      }
    }
    return None;
  }

  /** The form is accepted exactly when it has rows, every row is complete, and a new budget's year is allowed. */
  lemma FormAcceptedIff(items: seq<FormItem>, isEditMode: bool, year: int, currentYear: int, currentMonth: int)
    ensures FormError(items, isEditMode, year, currentYear, currentMonth).None? <==>
      items != []
      && (forall i :: 0 <= i < |items| ==> ItemError(items[i]).None?)
      && (!isEditMode ==> year == currentYear || (year > currentYear && currentMonth == 12))
  {
  }

  /** A row error wins over a year error: the year is only looked at once every row passes. */
  lemma RowErrorsComeFirst(items: seq<FormItem>, isEditMode: bool, year: int, currentYear: int, currentMonth: int, k: int)
    requires 0 <= k < |items| && ItemError(items[k]).Some?
    requires forall i :: 0 <= i < k ==> ItemError(items[i]).None?
    ensures FormError(items, isEditMode, year, currentYear, currentMonth) == ItemError(items[k])
  {
    FirstItemErrorIsFirst(items, k);
  }

  /** Every year the server would let a client create passes the form's year checks. */
  lemma ServerYearPassesForm(year: int, currentYear: int, currentMonth: int)
    requires BudgetService.CreatableYear(BudgetService.Today(currentYear, currentMonth), year)
    ensures YearError(year, currentYear, currentMonth).None?
  {
  }

  /**
   * The converse fails: in December the form's check lets any later year through, while the
   * server accepts only the next one. The year select offers no such year, so it is not reachable
   * from the dialog.
   */
  lemma FormYearCheckLooserThanServer(currentYear: int)
    ensures YearError(currentYear + 2, currentYear, 12).None?
    ensures !BudgetService.CreatableYear(BudgetService.Today(currentYear, 12), currentYear + 2)
  {
  }
}
