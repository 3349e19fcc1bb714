/**
 * `TransactionForm`: recording or editing a transaction against this year's budget. Picking an
 * expense type (or changing the date) chooses the budget item the transaction is booked on;
 * the form is validated before it is sent.
 */
module TransactionForm {
  import opened Wrappers
  import BudgetApi
  import Calendar
  import TransactionApi

  /** One budget item the form can book on (`BudgetItemOption`); the icon is left out. */
  datatype BudgetItemOption = BudgetItemOption(
    budgetItemId: string, expenseTypeId: string, expenseTypeName: string,
    budgetAmount: real, isOneTime: bool, applicableMonth: Option<int>)

  /** `TransactionRequest`, the form's data. */
  datatype FormData = FormData(
    budgetItemId: string, expenseTypeId: string, amount: real, description: string, transactionDate: string)

  /** An entry of the expense type select. */
  datatype TypeOption = TypeOption(value: string, text: string)

  const NoBudgetItemForType := "No budget item found for this expense type in the current month"
  const SelectExpenseType := "Please select an expense type"
  const NoBudgetItem := "No budget item available for this expense type"
  const AmountNotPositive := "Amount must be greater than 0"
  const SelectDate := "Please select a transaction date"

  /** `loadBudgetItems`: this year's budget items, or none when the budget cannot be loaded. */
  function BudgetItemsOf(budget: Option<BudgetApi.ViewBudget>): (r: seq<BudgetItemOption>)
    ensures budget.None? ==> r == []
    ensures budget.Some? ==> |r| == |budget.value.items|
    ensures budget.Some? ==> forall i :: 0 <= i < |r| ==>
      var item := budget.value.items[i];
      r[i] == BudgetItemOption(item.id, item.expenseTypeId, item.expenseTypeName, item.amount,
                               item.isOneTime, item.applicableMonth)
  {
    if budget.None? then []
    else
      var items := budget.value.items;
      seq(|items|, i requires 0 <= i < |items| =>
        BudgetItemOption(items[i].id, items[i].expenseTypeId, items[i].expenseTypeName, items[i].amount,
                         items[i].isOneTime, items[i].applicableMonth))
  }

  predicate IsDigit(c: char)
  {
    '0' <= c <= '9'
  }

  /**
   * `new Date(date).getMonth() + 1` for the date input's "YYYY-MM-DD" value, read as a calendar
   * date; `None` for a string that is no such date (the month of an invalid `Date` is NaN).
   */
  function DateMonth(date: string): (m: Option<int>)
    ensures m.Some? ==> 1 <= m.value <= 12
  {
    if |date| == 10 && date[4] == '-' && date[7] == '-'
       && IsDigit(date[0]) && IsDigit(date[1]) && IsDigit(date[2]) && IsDigit(date[3])
       && IsDigit(date[5]) && IsDigit(date[6]) && IsDigit(date[8]) && IsDigit(date[9])
    then
      var d := Calendar.Date(TransactionApi.DigitsValue(date[..4]), TransactionApi.DigitsValue(date[5..7]),
                             TransactionApi.DigitsValue(date[8..]));
      if Calendar.IsValidDate(d) then Some(d.month) else None
    else None
  }

  /** An item the type can be booked on in `month`: a recurring one, or a one-time one for that month. */
  predicate Matches(item: BudgetItemOption, expenseTypeId: string, month: Option<int>)
  {
    item.expenseTypeId == expenseTypeId && (!item.isOneTime || (month.Some? && item.applicableMonth == month))
  }

  /** `budgetItems.find(...)`: the first matching item. */
  function FindItem(items: seq<BudgetItemOption>, expenseTypeId: string, month: Option<int>): (r: Option<BudgetItemOption>)
    ensures r.None? <==> forall i :: 0 <= i < |items| ==> !Matches(items[i], expenseTypeId, month)
    ensures r.Some? ==> exists i :: (0 <= i < |items| && items[i] == r.value
      && Matches(items[i], expenseTypeId, month)
      && forall j :: 0 <= j < i ==> !Matches(items[j], expenseTypeId, month))
  {
    if items == [] then None
    else if Matches(items[0], expenseTypeId, month) then
      Some(items[0])
    else
      var r := FindItem(items[1..], expenseTypeId, month);
      assert forall i :: 1 <= i < |items| ==> items[i] == items[1..][i - 1];
      r
  }

  /** What `handleExpenseTypeChange` leaves: the new form data and the error shown, if any. */
  datatype Outcome = Outcome(form: FormData, error: Option<string>)

  /**
   * `handleExpenseTypeChange`: book on the first item of the type that applies in the date's
   * month; with none, keep the form as it was and show an error.
   */
  function ExpenseTypeChange(form: FormData, items: seq<BudgetItemOption>, expenseTypeId: string): (r: Outcome)
    ensures var found := FindItem(items, expenseTypeId, DateMonth(form.transactionDate));
      && (found.Some? ==> r == Outcome(form.(expenseTypeId := expenseTypeId, budgetItemId := found.value.budgetItemId), None))
      && (found.None? ==> r == Outcome(form, Some(NoBudgetItemForType)))
  {
    var budgetItem := FindItem(items, expenseTypeId, DateMonth(form.transactionDate));
    if budgetItem.Some? then
      Outcome(form.(expenseTypeId := expenseTypeId, budgetItemId := budgetItem.value.budgetItemId), None)
    else
      Outcome(form, Some(NoBudgetItemForType))
  }

  /** A type change that succeeds books on an item of that type which applies in the date's month. */
  lemma TypeChangeBooksMatchingItem(form: FormData, items: seq<BudgetItemOption>, expenseTypeId: string)
    requires ExpenseTypeChange(form, items, expenseTypeId).error.None?
    ensures var r := ExpenseTypeChange(form, items, expenseTypeId).form;
      && r.expenseTypeId == expenseTypeId
      && exists i :: (0 <= i < |items| && items[i].budgetItemId == r.budgetItemId
         && Matches(items[i], expenseTypeId, DateMonth(form.transactionDate)))
  {
  }

  /**
   * `handleDateChange`: the date always changes; with a type chosen, the booking moves to the
   * first matching item for the new month, and stays where it was when there is none.
   */
  function DateChange(form: FormData, items: seq<BudgetItemOption>, date: string): (r: FormData)
    ensures r.transactionDate == date
    ensures r.expenseTypeId == form.expenseTypeId && r.amount == form.amount && r.description == form.description
    ensures var found := FindItem(items, form.expenseTypeId, DateMonth(date));
      r.budgetItemId == if form.expenseTypeId != "" && found.Some? then found.value.budgetItemId else form.budgetItemId
  {
    var dated := form.(transactionDate := date);
    if form.expenseTypeId != "" then
      var budgetItem := FindItem(items, form.expenseTypeId, DateMonth(date));
      if budgetItem.Some? then dated.(budgetItemId := budgetItem.value.budgetItemId) else dated
    else dated
  }

  /**
   * A recurring item of the chosen type is there in every month, so changing the date then
   * books on an item of that type whatever the new date is.
   */
  lemma RecurringTypeSurvivesDateChange(form: FormData, items: seq<BudgetItemOption>, date: string, k: int)
    requires form.expenseTypeId != ""
    requires 0 <= k < |items| && items[k].expenseTypeId == form.expenseTypeId && !items[k].isOneTime
    ensures exists i :: (0 <= i < |items| && items[i].budgetItemId == DateChange(form, items, date).budgetItemId
      && items[i].expenseTypeId == form.expenseTypeId)
  {
    assert Matches(items[k], form.expenseTypeId, DateMonth(date));
  }

  /** The amount input: `parseFloat(value) || 0`, so text that is not a number reads as 0. */
  function AmountChange(form: FormData, parsed: Option<real>): (r: FormData)
    ensures parsed.None? ==> r == form.(amount := 0.0)
    ensures parsed.Some? ==> r == form.(amount := parsed.value)
  {
    form.(amount := parsed.GetOr(0.0))
  }

  /** `validateForm`: the first failing check, in the order type, budget item, amount, date. */
  function ValidateForm(form: FormData): (e: Option<string>)
    ensures e.None? <==>
      form.expenseTypeId != "" && form.budgetItemId != "" && form.amount > 0.0 && form.transactionDate != ""
    ensures form.expenseTypeId == "" ==> e == Some(SelectExpenseType)
    ensures form.expenseTypeId != "" && form.budgetItemId == "" ==> e == Some(NoBudgetItem)
    ensures form.expenseTypeId != "" && form.budgetItemId != "" && form.amount <= 0.0 ==> e == Some(AmountNotPositive)
    ensures form.expenseTypeId != "" && form.budgetItemId != "" && form.amount > 0.0 && form.transactionDate == ""
            ==> e == Some(SelectDate)
  {
    if form.expenseTypeId == "" then Some(SelectExpenseType)
    else if form.budgetItemId == "" then Some(NoBudgetItem)
    else if form.amount <= 0.0 then Some(AmountNotPositive)
    else if form.transactionDate == "" then Some(SelectDate)
    else None
  }

  /** A blank form, as opened for a new transaction, is refused for want of a type. */
  lemma NewFormRefused(date: string)
    ensures ValidateForm(FormData("", "", 0.0, "", date)) == Some(SelectExpenseType)
  {
  }

  /** Text that is not a number can never be submitted as the amount. */
  lemma UnparsableAmountRefused(form: FormData)
    requires form.expenseTypeId != "" && form.budgetItemId != ""
    ensures ValidateForm(AmountChange(form, None)) == Some(AmountNotPositive)
  {
  }

  /** `acc.find(x => x.value === v)` found something. */
  predicate Listed(acc: seq<TypeOption>, v: string)
  {
    exists j :: 0 <= j < |acc| && acc[j].value == v
  }

  /** The expense type options for `items`: each type once, named and placed by its first item. */
  function DistinctTypes(items: seq<BudgetItemOption>): (r: seq<TypeOption>)
    ensures |r| <= |items|
    ensures items != [] ==> |r| >= 1
  {
    if items == [] then []
    else
      var acc := DistinctTypes(items[..|items| - 1]);
      var item := items[|items| - 1];
      if Listed(acc, item.expenseTypeId) then acc else acc + [TypeOption(item.expenseTypeId, item.expenseTypeName)]
  }

  /** `availableExpenseTypes`: the `reduce` that pushes each type not yet listed. */
  method AvailableExpenseTypes(items: seq<BudgetItemOption>) returns (acc: seq<TypeOption>)
    ensures acc == DistinctTypes(items)
  {
    acc := [];
    var i := 0;
    while i < |items|
      invariant 0 <= i <= |items|
      invariant acc == DistinctTypes(items[..i])
    {
      var item := items[i];
      assert items[..i + 1][..i] == items[..i];
      if !Listed(acc, item.expenseTypeId) {
        acc := acc + [TypeOption(item.expenseTypeId, item.expenseTypeName)];
      }
      i := i + 1;
    }
    assert items[..i] == items;
  }

  /** No type is listed twice. */
  predicate DistinctValues(d: seq<TypeOption>)
  {
    forall j, k :: 0 <= j < k < |d| ==> d[j].value != d[k].value
  }

  /** Each type is offered at most once. */
  lemma {:induction false} DistinctTypesUnique(items: seq<BudgetItemOption>)
    ensures DistinctValues(DistinctTypes(items))
  {
    if items != [] {
      var init := items[..|items| - 1];
      DistinctTypesUnique(init);
      var acc, d := DistinctTypes(init), DistinctTypes(items);
      var v := items[|items| - 1].expenseTypeId;
      if !Listed(acc, v) {
        assert forall j :: 0 <= j < |acc| ==> d[j] == acc[j] && acc[j].value != v;
        assert d[|acc|].value == v;
      }
    }
  }

  /** A type is offered exactly when some budget item has it. */
  lemma {:induction false} DistinctTypesCover(items: seq<BudgetItemOption>, v: string)
    ensures Listed(DistinctTypes(items), v) <==> exists i :: 0 <= i < |items| && items[i].expenseTypeId == v
  {
    if items != [] {
      var init := items[..|items| - 1];
      DistinctTypesCover(init, v);
      assert forall i :: 0 <= i < |init| ==> init[i] == items[i];
      var acc := DistinctTypes(init);
      if !Listed(acc, items[|items| - 1].expenseTypeId) {
        var longer := DistinctTypes(items);
        assert forall j :: 0 <= j < |acc| ==> longer[j] == acc[j];
        if items[|items| - 1].expenseTypeId == v {
          assert longer[|acc|].value == v;
        }
      }
    }
  }

  /** Where type `v` first occurs among the items; `|items|` when it does not. */
  function FirstIndex(items: seq<BudgetItemOption>, v: string): (r: nat)
    ensures r <= |items|
    ensures r < |items| ==> items[r].expenseTypeId == v
    ensures forall i :: 0 <= i < r ==> items[i].expenseTypeId != v
  {
    if items == [] then 0
    else if items[0].expenseTypeId == v then 0
    else
      var r := FirstIndex(items[1..], v);
      assert forall i :: 1 <= i < |items| ==> items[i] == items[1..][i - 1];
      1 + r
  }

  /** Appending an item leaves a first occurrence where it was, or makes the new item the first. */
  lemma FirstIndexSnoc(init: seq<BudgetItemOption>, last: BudgetItemOption, v: string)
    ensures var r := FirstIndex(init, v);
      FirstIndex(init + [last], v) == if r < |init| then r else if last.expenseTypeId == v then |init| else |init| + 1
  {
    var items := init + [last];
    var r, s := FirstIndex(init, v), FirstIndex(items, v);
    assert forall i :: 0 <= i < |init| ==> items[i] == init[i];
    if r < |init| {
      assert items[r].expenseTypeId == v;
    }
    assert items[|init|] == last;
  }

  /**
   * Each option carries the label of the first item of its type, and the options follow the
   * order in which the types first occur.
   */
  predicate FirstOccurrence(items: seq<BudgetItemOption>, d: seq<TypeOption>)
  {
    && (forall j :: 0 <= j < |d| ==>
          FirstIndex(items, d[j].value) < |items| && items[FirstIndex(items, d[j].value)].expenseTypeName == d[j].text)
    && (forall j, k :: 0 <= j < k < |d| ==> FirstIndex(items, d[j].value) < FirstIndex(items, d[k].value))
  }

  lemma {:induction false} DistinctTypesFirstOccurrence(items: seq<BudgetItemOption>)
    ensures FirstOccurrence(items, DistinctTypes(items))
  {
    if items != [] {
      var init, last := items[..|items| - 1], items[|items| - 1];
      assert items == init + [last];
      DistinctTypesFirstOccurrence(init);
      var acc := DistinctTypes(init);
      if Listed(acc, last.expenseTypeId) {
        FirstOccurrenceExtends(init, last, acc);
      } else {
        DistinctTypesCover(init, last.expenseTypeId);
        FirstOccurrenceGrows(init, last, acc);
      }
    }
  }

  /** Appending an item of an already listed type keeps the options right. */
  lemma FirstOccurrenceExtends(init: seq<BudgetItemOption>, last: BudgetItemOption, d: seq<TypeOption>)
    requires FirstOccurrence(init, d)
    ensures FirstOccurrence(init + [last], d)
  {
    var items := init + [last];
    forall j | 0 <= j < |d|
      ensures FirstIndex(items, d[j].value) == FirstIndex(init, d[j].value)
    {
      FirstIndexSnoc(init, last, d[j].value);
    }
    assert forall i :: 0 <= i < |init| ==> items[i] == init[i];
  }

  /** Appending an item of a new type lists it last, with that item's label. */
  lemma FirstOccurrenceGrows(init: seq<BudgetItemOption>, last: BudgetItemOption, d: seq<TypeOption>)
    requires FirstOccurrence(init, d)
    requires forall i :: 0 <= i < |init| ==> init[i].expenseTypeId != last.expenseTypeId
    ensures FirstOccurrence(init + [last], d + [TypeOption(last.expenseTypeId, last.expenseTypeName)])
  {
    var items := init + [last];
    var added := TypeOption(last.expenseTypeId, last.expenseTypeName);
    var longer := d + [added];
    FirstOccurrenceExtends(init, last, d);
    FirstIndexSnoc(init, last, last.expenseTypeId);
    assert FirstIndex(items, added.value) == |init| && items[|init|] == last;
    forall j | 0 <= j < |longer|
      ensures FirstIndex(items, longer[j].value) < |items|
      ensures items[FirstIndex(items, longer[j].value)].expenseTypeName == longer[j].text
    {
      if j < |d| {
        assert longer[j] == d[j];
      } else {
        assert longer[j] == added;
      }
    }
    forall j, k | 0 <= j < k < |longer|
      ensures FirstIndex(items, longer[j].value) < FirstIndex(items, longer[k].value)
    {
      assert longer[j] == d[j];
      FirstIndexSnoc(init, last, d[j].value);
      if k < |d| {
        assert longer[k] == d[k];
      } else {
        assert longer[k] == added;
      }
    }
  }

  /** `disabled={loading || loadingBudget || budgetItems.length === 0}` on the submit button. */
  function SubmitEnabled(loading: bool, loadingBudget: bool, items: seq<BudgetItemOption>): (r: bool)
    ensures r <==> !loading && !loadingBudget && |items| > 0
  {
    !(loading || loadingBudget || |items| == 0)
  }

  /** When the budget cannot be loaded there is nothing to book on and nothing can be submitted. */
  lemma FailedBudgetLoadBlocksSubmit(loading: bool)
    ensures !SubmitEnabled(loading, false, BudgetItemsOf(None))
  {
  }
}
