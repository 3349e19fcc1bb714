/**
 * `TransactionService`: paged and filtered listing, owner-checked reads and writes, and
 * the monthly, per-type and yearly spending summaries.
 */
module TransactionService {
  import opened Wrappers
  import opened Calendar
  import opened TransactionRepository

  datatype TransactionRequest = TransactionRequest(
    budgetItemId: Id,
    expenseTypeId: Id,
    amount: real,
    description: Option<string>,
    transactionDate: LocalDate)

  datatype PagedResponse = PagedResponse(
    content: seq<Transaction>,
    page: nat,
    pageSize: nat,
    totalElements: nat,
    totalPages: nat)

  /** `NotFoundException`, and the `DateTimeException` that `LocalDate.of` throws for a month outside 1..12. */
  datatype TransactionError = TransactionNotFound | InvalidDate

  datatype MonthlySummary = MonthlySummary(year: int, month: int, totalExpenses: real, transactionCount: nat)

  datatype ExpenseTypeSummary = ExpenseTypeSummary(expenseTypeId: int, totalAmount: real)

  datatype YearlySummary = YearlySummary(year: int, monthlyTotals: map<int, real>, yearlyTotal: real)

  /**
   * The filter `getTransactions` picks: a date range only when both bounds are given, an
   * expense type whenever one is given; a lone bound is ignored.
   */
  function SelectQuery(startDate: Option<LocalDate>, endDate: Option<LocalDate>, expenseTypeId: Option<Id>): (q: Query)
    ensures startDate.Some? && endDate.Some? && expenseTypeId.Some? ==>
      q == InDateRangeOfExpenseType(startDate.value, endDate.value, expenseTypeId.value)
    ensures startDate.Some? && endDate.Some? && expenseTypeId.None? ==> q == InDateRange(startDate.value, endDate.value)
    ensures startDate.None? || endDate.None? ==>
      q == if expenseTypeId.Some? then OfExpenseType(expenseTypeId.value) else AllOfUser
  {
    if startDate.Some? && endDate.Some? && expenseTypeId.Some? then
      InDateRangeOfExpenseType(startDate.value, endDate.value, expenseTypeId.value)
    else if startDate.Some? && endDate.Some? then InDateRange(startDate.value, endDate.value)
    else if expenseTypeId.Some? then OfExpenseType(expenseTypeId.value)
    else AllOfUser
  }

  /** `getTransactions`: one page of the selected rows, newest first, with the totals for paging. */
  function GetTransactions(table: TransactionTable, userEmail: string, startDate: Option<LocalDate>, endDate: Option<LocalDate>,
                           expenseTypeId: Option<Id>, page: nat, pageSize: nat): (r: PagedResponse)
    reads table
    requires pageSize > 0
    ensures var q := SelectQuery(startDate, endDate, expenseTypeId);
      r.content == Find(table.rows, userEmail, q, page, pageSize)
      && r.totalElements == Count(table.rows, userEmail, q)
    ensures r.page == page && r.pageSize == pageSize
    ensures r.totalPages * pageSize >= r.totalElements
    ensures r.totalPages > 0 ==> (r.totalPages - 1) * pageSize < r.totalElements
    ensures r.content != [] <==> page < r.totalPages
  {
    var q := SelectQuery(startDate, endDate, expenseTypeId);
    var content := Find(table.rows, userEmail, q, page, pageSize);
    var total := Count(table.rows, userEmail, q);
    PageNonEmptyIff(SortNewestFirst(Filter(table.rows, userEmail, q)), page, pageSize);
    PagedResponse(content, page, pageSize, total, CeilDiv(total, pageSize))
  }

  /** Asking for pages `0 .. totalPages - 1` and laying them end to end lists every selected row once, newest first. */
  lemma PagingListsEverything(table: TransactionTable, userEmail: string, startDate: Option<LocalDate>, endDate: Option<LocalDate>,
                              expenseTypeId: Option<Id>, pageSize: nat)
    requires pageSize > 0
    ensures var q := SelectQuery(startDate, endDate, expenseTypeId);
      var all := SortNewestFirst(Filter(table.rows, userEmail, q));
      var totalPages := GetTransactions(table, userEmail, startDate, endDate, expenseTypeId, 0, pageSize).totalPages;
      FirstPages(all, totalPages, pageSize) == all
      && (forall i :: 0 <= i < totalPages ==> GetTransactions(table, userEmail, startDate, endDate, expenseTypeId, i, pageSize).content == PageOf(all, i, pageSize))
      && multiset(all) == multiset(Filter(table.rows, userEmail, q))
  {
    var q := SelectQuery(startDate, endDate, expenseTypeId);
    FindCoversCount(table.rows, userEmail, q, pageSize);
  }

  /** The row with this id, when it is the user's. */
  predicate OwnsRow(table: TransactionTable, userEmail: string, id: Id)
    reads table
  {
    var i := FindById(table.rows, id);
    i.Some? && table.rows[i.value].userEmail == userEmail
  }

  /** `getTransaction`: a missing row and another user's row are both "not found". */
  function GetTransaction(table: TransactionTable, userEmail: string, id: Id): (r: Result<Transaction, TransactionError>)
    reads table
    ensures r.Err? <==> !OwnsRow(table, userEmail, id)
    ensures r.Err? ==> r.error == TransactionNotFound
    ensures r.Ok? ==> r.value in table.rows && r.value.id == id && r.value.userEmail == userEmail
  {
    var i := FindById(table.rows, id);
    if i.Some? && table.rows[i.value].userEmail == userEmail then Ok(table.rows[i.value]) else Err(TransactionNotFound)
  }

  /** With unique ids, reading a transaction fails exactly when no row of the user's has that id. */
  lemma GetTransactionUnique(table: TransactionTable, userEmail: string, id: Id)
    requires table.Valid()
    ensures GetTransaction(table, userEmail, id).Err? <==>
      !exists i :: 0 <= i < |table.rows| && table.rows[i].id == id && table.rows[i].userEmail == userEmail
  {
  }

  /** The request a stored row holds. */
  function RequestOf(t: Transaction): TransactionRequest
  {
    TransactionRequest(t.budgetItemId, t.expenseTypeId, t.amount, t.description, t.transactionDate)
  }

  /** The row written for a request: the given id and owner, and the request's own fields. */
  function FromRequest(id: Id, userEmail: string, req: TransactionRequest): (r: Transaction)
    ensures r.id == id && r.userEmail == userEmail && RequestOf(r) == req
  {
    Transaction(id, userEmail, req.budgetItemId, req.expenseTypeId, req.amount, req.description, req.transactionDate)
  }

  /** `createTransaction`: appends a row with a fresh id, owned by the caller, holding the request's fields. */
  method CreateTransaction(table: TransactionTable, userEmail: string, req: TransactionRequest) returns (r: Transaction)
    requires table.Valid()
    modifies table
    ensures table.Valid()
    ensures r == FromRequest(old(table.nextId), userEmail, req)
    ensures table.rows == old(table.rows) + [r]
    ensures GetTransaction(table, userEmail, r.id) == Ok(r)
  {
    r := FromRequest(table.nextId, userEmail, req);
    assert FindById(table.rows, r.id).None?;
    FindByIdAppend(table.rows, r);
    table.rows := table.rows + [r];
    table.nextId := table.nextId + 1;
  }

  lemma {:induction false} FindByIdAppend(rows: seq<Transaction>, t: Transaction)
    requires FindById(rows, t.id).None?
    ensures FindById(rows + [t], t.id) == Some(|rows|)
  {
    if rows != [] {
      assert (rows + [t])[1..] == rows[1..] + [t];
      FindByIdAppend(rows[1..], t);
    }
  }

  /** `updateTransaction`: overwrites the five request fields of the caller's row, in place. */
  method UpdateTransaction(table: TransactionTable, userEmail: string, id: Id, req: TransactionRequest)
    returns (r: Result<Transaction, TransactionError>)
    requires table.Valid()
    modifies table
    ensures table.Valid() && table.nextId == old(table.nextId)
    ensures r.Err? <==> !old(OwnsRow(table, userEmail, id))
    ensures r.Err? ==> r.error == TransactionNotFound && table.rows == old(table.rows)
    ensures r.Ok? ==>
      var i := FindById(old(table.rows), id).value;
      r.value == FromRequest(id, userEmail, req)
      && table.rows == old(table.rows)[i := r.value]
      && GetTransaction(table, userEmail, id) == Ok(r.value)
  {
    var found := FindById(table.rows, id);
    if found.None? || table.rows[found.value].userEmail != userEmail {
      return Err(TransactionNotFound);
    }
    var i := found.value;
    var updated := FromRequest(id, userEmail, req);
    FindByIdReplace(table.rows, i, updated);
    table.rows := table.rows[i := updated];
    return Ok(updated);
  }

  lemma {:induction false} FindByIdReplace(rows: seq<Transaction>, i: nat, t: Transaction)
    requires i < |rows| && FindById(rows, t.id) == Some(i)
    ensures FindById(rows[i := t], t.id) == Some(i)
  {
    if i > 0 {
      assert rows[i := t][1..] == rows[1..][i - 1 := t];
      FindByIdReplace(rows[1..], i - 1, t);
    }
  }

  /** `deleteTransaction`: removes the caller's row; afterwards the id reads as not found. */
  method DeleteTransaction(table: TransactionTable, userEmail: string, id: Id) returns (r: Result<(), TransactionError>)
    requires table.Valid()
    modifies table
    ensures table.Valid() && table.nextId == old(table.nextId)
    ensures r.Err? <==> !old(OwnsRow(table, userEmail, id))
    ensures r.Err? ==> r.error == TransactionNotFound && table.rows == old(table.rows)
    ensures r.Ok? ==>
      var i := FindById(old(table.rows), id).value;
      table.rows == old(table.rows)[..i] + old(table.rows)[i + 1..]
      && GetTransaction(table, userEmail, id) == Err(TransactionNotFound)
  {
    var found := FindById(table.rows, id);
    if found.None? || table.rows[found.value].userEmail != userEmail {
      return Err(TransactionNotFound);
    }
    var i := found.value;
    var rest := table.rows[..i] + table.rows[i + 1..];
    RemoveAtKeepsIdsUnique(table.rows, i, table.nextId);
    table.rows := rest;
    return Ok(());
  }

  /** Taking one row out keeps the ids unique and below the counter, and its id is then unused. */
  lemma RemoveAtKeepsIdsUnique(rows: seq<Transaction>, i: nat, nextId: Id)
    requires i < |rows|
    requires forall k :: 0 <= k < |rows| ==> rows[k].id < nextId
    requires forall a, b :: 0 <= a < b < |rows| ==> rows[a].id != rows[b].id
    ensures var rest := rows[..i] + rows[i + 1..];
      && (forall k :: 0 <= k < |rest| ==> rest[k].id < nextId)
      && (forall a, b :: 0 <= a < b < |rest| ==> rest[a].id != rest[b].id)
      && FindById(rest, rows[i].id).None?
  {
    var rest := rows[..i] + rows[i + 1..];
    forall k | 0 <= k < |rest|
      ensures rest[k] == rows[if k < i then k else k + 1]
    {
    }
  }

  /** `getMonthlySummary`: the month's total and number of the user's transactions. */
  function GetMonthlySummary(table: TransactionTable, userEmail: string, year: int, month: int): (r: Result<MonthlySummary, TransactionError>)
    reads table
    ensures r.Err? <==> !IsMonth(month)
    ensures r.Err? ==> r.error == InvalidDate
    ensures r.Ok? ==>
      r.value.year == year && r.value.month == month
      && r.value.totalExpenses == Total(Filter(table.rows, userEmail, MonthQuery(year, month)))
      && r.value.transactionCount == |Filter(table.rows, userEmail, MonthQuery(year, month))|
  {
    if !IsMonth(month) then Err(InvalidDate)
    else
      Ok(MonthlySummary(year, month, SumByUserEmailAndMonth(table.rows, userEmail, year, month),
        Count(table.rows, userEmail, MonthQuery(year, month))))
  }

  /** `getExpenseTypeSummary`: one entry per expense type the user spent on that month, with the amount. */
  method GetExpenseTypeSummary(table: TransactionTable, userEmail: string, year: int, month: int)
    returns (r: Result<set<ExpenseTypeSummary>, TransactionError>)
    ensures r.Err? <==> !IsMonth(month)
    ensures r.Ok? ==>
      var monthRows := Filter(table.rows, userEmail, MonthQuery(year, month));
      forall e :: e in r.value <==>
        e.expenseTypeId in KeySet(monthRows, ExpenseTypeKey) && e.totalAmount == SumWhere(monthRows, ExpenseTypeKey, e.expenseTypeId)
  {
    if !IsMonth(month) {
      return Err(InvalidDate);
    }
    var m := SumByExpenseTypeForMonth(table.rows, userEmail, year, month);
    return Ok(set k | k in m :: ExpenseTypeSummary(k, m[k]));
  }

  /** The per-type amounts of a month add up to that month's total. */
  lemma TypeSummaryAddsUp(m: map<int, real>, table: TransactionTable, userEmail: string, year: int, month: int)
    requires IsMonth(month)
    requires IsGroupMap(m, Filter(table.rows, userEmail, MonthQuery(year, month)), ExpenseTypeKey)
    ensures SumValues(m) == GetMonthlySummary(table, userEmail, year, month).value.totalExpenses
  {
    GroupSumsAddUp(m, Filter(table.rows, userEmail, MonthQuery(year, month)), ExpenseTypeKey);
  }

  /** `getYearlySummary`: totals per month with at least one transaction, and their sum. */
  method GetYearlySummary(table: TransactionTable, userEmail: string, year: int) returns (r: YearlySummary)
    ensures r.year == year
    ensures IsGroupMap(r.monthlyTotals, Filter(table.rows, userEmail, YearQuery(year)), MonthKey)
    ensures forall k :: k in r.monthlyTotals ==> IsMonth(k)
    ensures r.yearlyTotal == Total(Filter(table.rows, userEmail, YearQuery(year)))
  {
    var totals := SumByMonthForYear(table.rows, userEmail, year);
    MonthTotalsAddUp(totals, table.rows, userEmail, year);
    return YearlySummary(year, totals, SumValues(totals));
  }

  /** `getSpentByExpenseType`. */
  function GetSpentByExpenseType(table: TransactionTable, userEmail: string, expenseTypeId: Id, year: int, month: int): (r: Result<real, TransactionError>)
    reads table
    ensures r.Err? <==> !IsMonth(month)
    ensures r.Ok? ==> r.value == Total(Filter(table.rows, userEmail,
      InDateRangeOfExpenseType(FirstOfMonth(year, month), LastOfMonth(year, month), expenseTypeId)))
  {
    if !IsMonth(month) then Err(InvalidDate)
    else Ok(SumByUserEmailExpenseTypeAndMonth(table.rows, userEmail, expenseTypeId, year, month))
  }

  /** `hasBudgetItemTransactions`: whether any row, of any user, books against the budget item. */
  function HasBudgetItemTransactions(table: TransactionTable, budgetItemId: Id): (b: bool)
    reads table
    ensures b <==> exists t :: t in table.rows && t.budgetItemId == budgetItemId
  {
    var b := ExistsByBudgetItemId(table.rows, budgetItemId);
    assert b ==> exists i :: 0 <= i < |table.rows| && table.rows[i].budgetItemId == budgetItemId;
    b
  }
}
