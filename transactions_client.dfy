/**
 * `TransactionsClient`: the transactions page. It keeps the rows loaded so far, the paging
 * position, the filters, and the selected month's budget and summary. Each server reply is a
 * parameter of the handler that receives it; `None` stands for a request that failed.
 */
module TransactionsClient {
  import opened Wrappers
  import opened BudgetApi
  import TransactionApi
  import BudgetDetailModal

  /** The page size `loadTransactions` always asks for. */
  const PageSize := 10

  /** A transaction as the page lists it. */
  datatype ListedTransaction = ListedTransaction(
    id: string, budgetItemId: string, expenseTypeId: string, amount: real,
    description: Option<string>, transactionDate: string)

  datatype PagedResponse = PagedResponse(
    content: seq<ListedTransaction>, page: int, pageSize: int, totalElements: int, totalPages: int)

  datatype MonthlySummary = MonthlySummary(year: int, month: int, totalExpenses: real, transactionCount: int)

  /** `TransactionFilterValues`, as the filter bar produces them; the description is never sent. */
  datatype FilterValues = FilterValues(
    startDate: Option<string>, endDate: Option<string>, expenseTypeId: Option<string>, description: Option<string>)

  const NoFilters := FilterValues(None, None, None, None)

  /** `{ page, pageSize: 10, ...activeFilters }`: the filter values carry no paging, so the page survives the spread. */
  function RequestFilters(active: FilterValues, page: int): (f: TransactionApi.TransactionFilters)
    ensures f.page == Some(page) && f.pageSize == Some(PageSize)
    ensures f.startDate == active.startDate && f.endDate == active.endDate && f.expenseTypeId == active.expenseTypeId
  {
    TransactionApi.TransactionFilters(active.startDate, active.endDate, active.expenseTypeId, Some(page), Some(PageSize))
  }

  /** The URL asked for when loading `page` under `active`. */
  function ListRequest(active: FilterValues, page: int): (r: string)
    ensures |r| > |TransactionApi.ListPath| && r[..|TransactionApi.ListPath|] == TransactionApi.ListPath
  {
    TransactionApi.ListUrl(Some(RequestFilters(active, page)))
  }

  /** A description typed into the filter bar does not change the request. */
  lemma DescriptionNotSent(active: FilterValues, page: int, d: Option<string>)
    ensures ListRequest(active, page) == ListRequest(active.(description := d), page)
  {
  }

  /** Every page request carries a query: `page` and `pageSize` are always set. */
  lemma PageRequestHasQuery(active: FilterValues, page: int)
    ensures ListRequest(active, page) != TransactionApi.ListPath
  {
    TransactionApi.BareUrlIffNoFilters(Some(RequestFilters(active, page)));
  }

  /**
   * `calculateBudgetTotal`, as the `reduce` it is: recurring amounts always count, one-time
   * amounts only for the selected month.
   */
  function MonthBudgetTotal(items: seq<ViewItem>, selectedMonth: int): (r: real)
    ensures (forall i :: 0 <= i < |items| ==> !items[i].isOneTime) ==> r == AmountTotal(items)
    ensures (forall i :: 0 <= i < |items| ==> items[i].amount >= 0.0) ==> 0.0 <= r <= AmountTotal(items)
  {
    if items == [] then 0.0
    else
      var item := items[|items| - 1];
      var total := MonthBudgetTotal(items[..|items| - 1], selectedMonth);
      if !item.isOneTime then total + item.amount
      else if item.applicableMonth == Some(selectedMonth) then total + item.amount
      else total
  }

  /** The month's budget is the recurring total plus the total of the month's one-time items. */
  lemma {:induction false} MonthBudgetTotalSplits(items: seq<ViewItem>, selectedMonth: int)
    ensures MonthBudgetTotal(items, selectedMonth)
      == AmountTotal(RecurringItems(items)) + AmountTotal(BudgetDetailModal.ItemsOfMonth(items, Some(selectedMonth)))
  {
    if items != [] {
      var init, last := items[..|items| - 1], items[|items| - 1];
      MonthBudgetTotalSplits(init, selectedMonth);
      var m := Some(selectedMonth);
      if !last.isOneTime {
        assert RecurringItems(items) == RecurringItems(init) + [last];
        AmountTotalAppend(RecurringItems(init), [last]);
        assert BudgetDetailModal.ItemsOfMonth(items, m) == BudgetDetailModal.ItemsOfMonth(init, m);
      } else if last.applicableMonth == m {
        assert BudgetDetailModal.ItemsOfMonth(items, m) == BudgetDetailModal.ItemsOfMonth(init, m) + [last];
        AmountTotalAppend(BudgetDetailModal.ItemsOfMonth(init, m), [last]);
        assert RecurringItems(items) == RecurringItems(init);
      } else {
        assert RecurringItems(items) == RecurringItems(init);
        assert BudgetDetailModal.ItemsOfMonth(items, m) == BudgetDetailModal.ItemsOfMonth(init, m);
      }
    }
  }

  /** `calculateBudgetTotal`: 0 without a budget. */
  function CalculateBudgetTotal(budget: Option<ViewBudget>, selectedMonth: int): (r: real)
    ensures budget.None? ==> r == 0.0
    ensures budget.Some? ==>
      r == AmountTotal(RecurringItems(budget.value.items))
           + AmountTotal(BudgetDetailModal.ItemsOfMonth(budget.value.items, Some(selectedMonth)))
  {
    if budget.None? then 0.0
    else
      MonthBudgetTotalSplits(budget.value.items, selectedMonth);
      MonthBudgetTotal(budget.value.items, selectedMonth)
  }

  /** With only recurring items every month has the same budget. */
  lemma RecurringOnlySameEveryMonth(budget: ViewBudget, m1: int, m2: int)
    requires forall i :: 0 <= i < |budget.items| ==> !budget.items[i].isOneTime
    ensures CalculateBudgetTotal(Some(budget), m1) == CalculateBudgetTotal(Some(budget), m2)
  {
    NoOneTimeNoMonthItems(budget.items, Some(m1));
    NoOneTimeNoMonthItems(budget.items, Some(m2));
  }

  lemma NoOneTimeNoMonthItems(items: seq<ViewItem>, m: Option<int>)
    requires forall i :: 0 <= i < |items| ==> !items[i].isOneTime
    ensures BudgetDetailModal.ItemsOfMonth(items, m) == []
  {
  }

  class TransactionsPage {
    var transactions: seq<ListedTransaction>
    var currentPage: int
    var totalPages: int
    var filters: FilterValues
    var budget: Option<ViewBudget>
    var monthlySummary: Option<MonthlySummary>
    var selectedYear: int
    var selectedMonth: int

    /** The page as first rendered, on today's month. */
    constructor (currentYear: int, currentMonth: int)
      ensures transactions == [] && currentPage == 0 && totalPages == 0 && filters == NoFilters
      ensures budget.None? && monthlySummary.None?
      ensures selectedYear == currentYear && selectedMonth == currentMonth
      ensures Valid()
    {
      transactions := [];
      currentPage := 0;
      totalPages := 0;
      filters := NoFilters;
      budget := None;
      monthlySummary := None;
      selectedYear := currentYear;
      selectedMonth := currentMonth;
    }

    /**
     * Pages are numbered from 0, so the page after the current one is never page 0: loading
     * more appends to the list instead of replacing it.
     */
    predicate Valid()
      reads this
    {
      currentPage >= 0
    }

    /** `hasMore`: there is a page after the current one. */
    predicate HasMore()
      reads this
    {
      currentPage + 1 < totalPages
    }

    /**
     * `loadTransactions(page, filterOverride)`: request `page` under the override, or else the
     * current filters; page 0 replaces the rows, a later page appends its rows after them. A
     * failed request changes nothing.
     */
    method LoadTransactions(page: int, filterOverride: Option<FilterValues>, response: Option<PagedResponse>)
      returns (url: string)
      modifies this
      ensures url == ListRequest(filterOverride.GetOr(old(filters)), page)
      ensures filters == old(filters) && budget == old(budget) && monthlySummary == old(monthlySummary)
      ensures selectedYear == old(selectedYear) && selectedMonth == old(selectedMonth)
      ensures response.None? ==>
        transactions == old(transactions) && currentPage == old(currentPage) && totalPages == old(totalPages)
      ensures response.Some? ==>
        && transactions == (if page == 0 then response.value.content else old(transactions) + response.value.content)
        && currentPage == page && totalPages == response.value.totalPages
    {
      var activeFilters := if filterOverride.Some? then filterOverride.value else filters;
      url := TransactionApi.List(Some(RequestFilters(activeFilters, page)));
      if response.None? {
        return;
      }
      if page == 0 {
        transactions := response.value.content;
      } else {
        transactions := transactions + response.value.content;
      }
      currentPage := page;
      totalPages := response.value.totalPages;
    }

    /** `handleLoadMore`: ask for the next page exactly when `hasMore` holds. */
    method HandleLoadMore(response: Option<PagedResponse>) returns (url: Option<string>)
      requires Valid()
      modifies this
      ensures Valid()
      ensures url.Some? <==> old(HasMore())
      ensures url.Some? ==> url.value == ListRequest(old(filters), old(currentPage) + 1)
      ensures !old(HasMore()) ==>
        transactions == old(transactions) && currentPage == old(currentPage) && totalPages == old(totalPages)
      ensures old(HasMore()) && response.Some? ==>
        && transactions == old(transactions) + response.value.content
        && currentPage == old(currentPage) + 1 && totalPages == response.value.totalPages
      ensures filters == old(filters) && budget == old(budget) && monthlySummary == old(monthlySummary)
      ensures selectedYear == old(selectedYear) && selectedMonth == old(selectedMonth)
    {
      if currentPage + 1 < totalPages {
        var requested := LoadTransactions(currentPage + 1, None, response);
        url := Some(requested);
      } else {
        url := None;
      }
    }

    /** `handleApplyFilters`: keep the new filters and load page 0 under them, not under the old ones. */
    method ApplyFilters(newFilters: FilterValues, response: Option<PagedResponse>) returns (url: string)
      modifies this
      ensures filters == newFilters
      ensures url == ListRequest(newFilters, 0)
      ensures response.Some? ==> transactions == response.value.content && currentPage == 0
      ensures response.None? ==> transactions == old(transactions) && currentPage == old(currentPage)
      ensures budget == old(budget) && monthlySummary == old(monthlySummary)
      ensures selectedYear == old(selectedYear) && selectedMonth == old(selectedMonth)
    {
      filters := newFilters;
      url := LoadTransactions(0, Some(newFilters), response);
    }

    /** `handleResetFilters`: clear the filters and load page 0 without any. */
    method ResetFilters(response: Option<PagedResponse>) returns (url: string)
      modifies this
      ensures filters == NoFilters
      ensures url == ListRequest(NoFilters, 0)
      ensures response.Some? ==> transactions == response.value.content && currentPage == 0
      ensures response.None? ==> transactions == old(transactions) && currentPage == old(currentPage)
      ensures budget == old(budget) && monthlySummary == old(monthlySummary)
      ensures selectedYear == old(selectedYear) && selectedMonth == old(selectedMonth)
    {
      filters := NoFilters;
      url := LoadTransactions(0, Some(NoFilters), response);
    }

    /** `loadMonthlySummary`: a failed request shows an empty summary for the selected month. */
    method LoadMonthlySummary(result: Option<MonthlySummary>)
      modifies this
      ensures result.Some? ==> monthlySummary == result
      ensures result.None? ==> monthlySummary == Some(MonthlySummary(selectedYear, selectedMonth, 0.0, 0))
      ensures transactions == old(transactions) && currentPage == old(currentPage) && totalPages == old(totalPages)
      ensures filters == old(filters) && budget == old(budget)
      ensures selectedYear == old(selectedYear) && selectedMonth == old(selectedMonth)
    {
      if result.Some? {
        monthlySummary := result;
      } else {
        monthlySummary := Some(MonthlySummary(selectedYear, selectedMonth, 0.0, 0));
      }
    }

    /** `loadBudget`: the selected year's budget, or none when the request fails. */
    method LoadBudget(result: Option<ViewBudget>)
      modifies this
      ensures budget == result
      ensures result.None? ==> BudgetTotal() == 0.0
      ensures transactions == old(transactions) && currentPage == old(currentPage) && totalPages == old(totalPages)
      ensures filters == old(filters) && monthlySummary == old(monthlySummary)
      ensures selectedYear == old(selectedYear) && selectedMonth == old(selectedMonth)
    {
      budget := result;
    }

    /** The budget figure shown for the selected month. */
    function BudgetTotal(): real
      reads this
    {
      CalculateBudgetTotal(budget, selectedMonth)
    }

    /** `handleMonthChange`. */
    method ChangeMonth(month: int, year: int)
      modifies this
      ensures selectedMonth == month && selectedYear == year
      ensures transactions == old(transactions) && currentPage == old(currentPage) && totalPages == old(totalPages)
      ensures filters == old(filters) && budget == old(budget) && monthlySummary == old(monthlySummary)
    {
      selectedMonth := month;
      selectedYear := year;
    }
  }

  /** Loading page 0 and then each next page lists the pages' rows one after the other. */
  method LoadTwoPages(view: TransactionsPage, first: PagedResponse, second: PagedResponse)
    modifies view
    requires first.totalPages > 1
    ensures view.transactions == first.content + second.content
    ensures view.currentPage == 1
  {
    var _ := view.LoadTransactions(0, None, Some(first));
    assert view.HasMore();
    var _ := view.HandleLoadMore(Some(second));
  }
}
