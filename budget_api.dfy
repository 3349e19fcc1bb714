/**
 * The budget as the web client receives it (`Budget`, `BudgetItem`), and the splits and
 * totals the budget screens compute from its items.
 */
module BudgetApi {
  import opened Wrappers
  import Collections

  datatype ViewItem = ViewItem(
    id: string,
    expenseTypeId: string,
    expenseTypeName: string,
    amount: real,
    isOneTime: bool,
    applicableMonth: Option<int>)

  datatype ViewBudget = ViewBudget(year: int, items: seq<ViewItem>)

  /** `items.filter(item => !item.isOneTime)`. */
  function RecurringItems(items: seq<ViewItem>): (r: seq<ViewItem>)
    ensures forall x :: x in r <==> x in items && !x.isOneTime
    ensures |r| <= |items|
  {
    if items == [] then []
    else
      var last := items[|items| - 1];
      assert items == items[..|items| - 1] + [last];
      RecurringItems(items[..|items| - 1]) + if !last.isOneTime then [last] else []
  }

  /** `items.filter(item => item.isOneTime)`. */
  function OneTimeItems(items: seq<ViewItem>): (r: seq<ViewItem>)
    ensures forall x :: x in r <==> x in items && x.isOneTime
    ensures |r| <= |items|
  {
    if items == [] then []
    else
      var last := items[|items| - 1];
      assert items == items[..|items| - 1] + [last];
      OneTimeItems(items[..|items| - 1]) + if last.isOneTime then [last] else []
  }

  /** `items.reduce((sum, item) => sum + item.amount, 0)`. */
  function AmountTotal(items: seq<ViewItem>): real
  {
    if items == [] then 0.0 else AmountTotal(items[..|items| - 1]) + items[|items| - 1].amount
  }

  /** The recurring and one-time lists split the items between them: together they hold each item once. */
  lemma {:induction false} ItemsPartition(items: seq<ViewItem>)
    ensures multiset(RecurringItems(items)) + multiset(OneTimeItems(items)) == multiset(items)
    ensures |RecurringItems(items)| + |OneTimeItems(items)| == |items|
  {
    if items != [] {
      var init, last := items[..|items| - 1], items[|items| - 1];
      assert items == init + [last];
      ItemsPartition(init);
      if last.isOneTime {
        assert OneTimeItems(items) == OneTimeItems(init) + [last];
        assert RecurringItems(items) == RecurringItems(init);
      } else {
        assert RecurringItems(items) == RecurringItems(init) + [last];
        assert OneTimeItems(items) == OneTimeItems(init);
      }
    }
  }

  /** The recurring total and the one-time total add up to the total of all items. */
  lemma {:induction false} TotalsPartition(items: seq<ViewItem>)
    ensures AmountTotal(RecurringItems(items)) + AmountTotal(OneTimeItems(items)) == AmountTotal(items)
  {
    if items != [] {
      var init, last := items[..|items| - 1], items[|items| - 1];
      TotalsPartition(init);
      if last.isOneTime {
        assert OneTimeItems(items) == OneTimeItems(init) + [last];
        AmountTotalAppend(OneTimeItems(init), [last]);
        assert RecurringItems(items) == RecurringItems(init);
      } else {
        assert RecurringItems(items) == RecurringItems(init) + [last];
        AmountTotalAppend(RecurringItems(init), [last]);
        assert OneTimeItems(items) == OneTimeItems(init);
      }
    }
  }

  lemma {:induction false} AmountTotalAppend(xs: seq<ViewItem>, ys: seq<ViewItem>)
    ensures AmountTotal(xs + ys) == AmountTotal(xs) + AmountTotal(ys)
    decreases |ys|
  {
    if ys == [] {
      assert xs + ys == xs;
    } else {
      var init := ys[..|ys| - 1];
      assert (xs + ys)[..|xs + ys| - 1] == xs + init;
      assert (xs + ys)[|xs + ys| - 1] == ys[|ys| - 1];
      AmountTotalAppend(xs, init);
    }
  }

  lemma RecurringItemsSplit(xs: seq<ViewItem>, ys: seq<ViewItem>)
    requires ys != []
    ensures var last := ys[|ys| - 1];
      RecurringItems(xs + ys) == RecurringItems(xs + ys[..|ys| - 1]) + if !last.isOneTime then [last] else []
  {
    assert (xs + ys)[..|xs + ys| - 1] == xs + ys[..|ys| - 1];
  }


  lemma OneTimeItemsSplit(xs: seq<ViewItem>, ys: seq<ViewItem>)
    requires ys != []
    ensures var last := ys[|ys| - 1];
      OneTimeItems(xs + ys) == OneTimeItems(xs + ys[..|ys| - 1]) + if last.isOneTime then [last] else []
  {
    assert (xs + ys)[..|xs + ys| - 1] == xs + ys[..|ys| - 1];
  }


  /** `filter` keeps list order: filtering a concatenation concatenates the filtered parts. */
  lemma {:induction false} RecurringItemsAppend(xs: seq<ViewItem>, ys: seq<ViewItem>)
    ensures RecurringItems(xs + ys) == RecurringItems(xs) + RecurringItems(ys)
    decreases |ys|
  {
    if ys == [] {
      assert xs + ys == xs;
    } else {
      var init, last := ys[..|ys| - 1], ys[|ys| - 1];
      RecurringItemsSplit(xs, ys);
      RecurringItemsAppend(xs, init);
      Collections.Regroup(RecurringItems(xs + ys), RecurringItems(xs + init), RecurringItems(xs), RecurringItems(init),
        if !last.isOneTime then [last] else []);
    }
  }




  lemma {:induction false} OneTimeItemsAppend(xs: seq<ViewItem>, ys: seq<ViewItem>)
    ensures OneTimeItems(xs + ys) == OneTimeItems(xs) + OneTimeItems(ys)
    decreases |ys|
  {
    if ys == [] {
      assert xs + ys == xs;
    } else {
      var init, last := ys[..|ys| - 1], ys[|ys| - 1];
      OneTimeItemsSplit(xs, ys);
      OneTimeItemsAppend(xs, init);
      Collections.Regroup(OneTimeItems(xs + ys), OneTimeItems(xs + init), OneTimeItems(xs), OneTimeItems(init),
        if last.isOneTime then [last] else []);
    }
  }



  /** `budget.year < currentYear`: a past year's budget can be neither edited nor deleted. */
  predicate IsPastYear(year: int, currentYear: int)
  {
    year < currentYear
  }
}
