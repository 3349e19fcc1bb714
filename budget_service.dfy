/**
 * `BudgetService`: listing, reading, creating, replacing, deleting and copying a user's
 * yearly budgets. Every operation is one transaction, so an operation that fails leaves
 * the store as it was.
 */
module BudgetService {
  import opened Wrappers
  import opened BudgetStore
  import Collections

  /** `LocalDate.now()`; only its year and month are consulted. */
  datatype Today = Today(year: int, month: int)

  datatype BudgetError =
    | BudgetNotFound
    | SourceBudgetNotFound
    | PastYear
    | NextYearOnlyInDecember
    | MoreThanOneYearAhead
    | BudgetExists
    | ExpenseTypeNotFound
    | ForeignExpenseType
    | OneTimeWithoutMonth
    | RecurringWithMonth
    | HasTransactions

  /** One element of the item list a client sends. */
  datatype ItemRequest = ItemRequest(expenseTypeId: Id, amount: real, isOneTime: bool, applicableMonth: Option<int>)

  /** The expense type as embedded in a budget item response (`canDelete` is always false there). */
  datatype ExpenseTypeSummary = ExpenseTypeSummary(
    id: Id, userEmail: string, name: string, icon: string, isMandatory: bool, canDelete: bool)

  datatype BudgetItemResponse = BudgetItemResponse(
    id: Id,
    budgetId: Id,
    expenseType: ExpenseTypeSummary,
    amount: real,
    isOneTime: bool,
    applicableMonth: Option<int>)

  datatype BudgetResponse = BudgetResponse(id: Id, userEmail: string, year: int, items: seq<BudgetItemResponse>)

  // ---------------------------------------------------------------------------
  // Validation

  /** The years for which a budget may be created: this year, and next year once it is December. */
  predicate CreatableYear(today: Today, year: int)
  {
    year == today.year || (year == today.year + 1 && today.month == 12)
  }

  /** `validateBudgetCreation`: the first rule a new budget for `year` breaks, if any. */
  function CreationCheck(today: Today, year: int, alreadyExists: bool): (e: Option<BudgetError>)
    ensures e.None? <==> CreatableYear(today, year) && !alreadyExists
    ensures e == Some(PastYear) <==> year < today.year
    ensures e == Some(NextYearOnlyInDecember) <==> year > today.year && today.month != 12
    ensures e == Some(MoreThanOneYearAhead) <==> year > today.year + 1 && today.month == 12
    ensures e == Some(BudgetExists) <==> CreatableYear(today, year) && alreadyExists
    ensures e.Some? ==> e.value in {PastYear, NextYearOnlyInDecember, MoreThanOneYearAhead, BudgetExists}
  {
    if year < today.year then Some(PastYear)
    else if year > today.year && today.month != 12 then Some(NextYearOnlyInDecember)
    else if year > today.year + 1 then Some(MoreThanOneYearAhead)
    else if alreadyExists then Some(BudgetExists)
    else None
  }

  /** A one-time item names its month; a recurring item does not. */
  predicate WellShaped(r: ItemRequest)
  {
    r.isOneTime == r.applicableMonth.Some?
  }

  function ShapeErrorOf(r: ItemRequest): BudgetError
  {
    if r.isOneTime then OneTimeWithoutMonth else RecurringWithMonth
  }

  /** The per-item check of the creation loop, in list order: the first misshapen item's error. */
  function ShapeError(reqs: seq<ItemRequest>): (e: Option<BudgetError>)
    ensures e.None? <==> forall i :: 0 <= i < |reqs| ==> WellShaped(reqs[i])
    ensures e.Some? ==> exists i :: 0 <= i < |reqs| && !WellShaped(reqs[i]) && e.value == ShapeErrorOf(reqs[i])
  {
    if reqs == [] then None
    else if !WellShaped(reqs[0]) then Some(ShapeErrorOf(reqs[0]))
    else
      var rest := ShapeError(reqs[1..]);
      assert forall i :: 1 <= i < |reqs| ==> reqs[i] == reqs[1..][i - 1];
      rest
  }

  lemma {:induction false} ShapeErrorAt(reqs: seq<ItemRequest>, i: nat)
    requires i < |reqs| && !WellShaped(reqs[i])
    requires forall j :: 0 <= j < i ==> WellShaped(reqs[j])
    ensures ShapeError(reqs) == Some(ShapeErrorOf(reqs[i]))
  {
    if i > 0 {
      ShapeErrorAt(reqs[1..], i - 1);
    }
  }

  /** The expense-type checks that precede the loop: all referenced types exist, and all are the user's. */
  function TypeCheck(userEmail: string, reqs: seq<ItemRequest>, types: map<Id, ExpenseType>): (e: Option<BudgetError>)
    ensures e.None? <==> forall i :: 0 <= i < |reqs| ==>
      reqs[i].expenseTypeId in types && types[reqs[i].expenseTypeId].userEmail == userEmail
    ensures e == Some(ExpenseTypeNotFound) <==> exists i :: 0 <= i < |reqs| && reqs[i].expenseTypeId !in types
    ensures e == Some(ForeignExpenseType) <==>
      (forall i :: 0 <= i < |reqs| ==> reqs[i].expenseTypeId in types)
      && exists i :: 0 <= i < |reqs| && reqs[i].expenseTypeId in types && types[reqs[i].expenseTypeId].userEmail != userEmail
  {
    if exists i :: 0 <= i < |reqs| && reqs[i].expenseTypeId !in types then Some(ExpenseTypeNotFound)
    else if exists i :: 0 <= i < |reqs| && types[reqs[i].expenseTypeId].userEmail != userEmail then Some(ForeignExpenseType)
    else None
  }

  /** `createBudgetItems`' failures, in the order the source checks them. */
  function ItemsCheck(userEmail: string, reqs: seq<ItemRequest>, types: map<Id, ExpenseType>): (e: Option<BudgetError>)
    ensures e.None? <==> forall i :: 0 <= i < |reqs| ==>
      reqs[i].expenseTypeId in types && types[reqs[i].expenseTypeId].userEmail == userEmail && WellShaped(reqs[i])
  {
    var typeError := TypeCheck(userEmail, reqs, types);
    if typeError.Some? then typeError else ShapeError(reqs)
  }

  // ---------------------------------------------------------------------------
  // Items built from requests, and requests read back from items

  function RequestOf(item: BudgetItem): ItemRequest
  {
    ItemRequest(item.expenseTypeId, item.amount, item.isOneTime, item.applicableMonth)
  }

  function RequestsOf(items: seq<BudgetItem>): (reqs: seq<ItemRequest>)
    ensures |reqs| == |items|
  {
    seq(|items|, i requires 0 <= i < |items| => RequestOf(items[i]))
  }

  /** `items` are the rows persisted for `reqs` under budget `budgetId`, with fresh ids from `firstId` on. */
  predicate BuiltFrom(items: seq<BudgetItem>, budgetId: Id, firstId: Id, reqs: seq<ItemRequest>)
  {
    |items| == |reqs|
    && forall i :: 0 <= i < |items| ==>
         items[i].id == firstId + i && items[i].budgetId == budgetId && RequestOf(items[i]) == reqs[i]
  }

  /** Reading the requests back from the items built for them gives those requests. */
  lemma BuiltFromRoundTrip(items: seq<BudgetItem>, budgetId: Id, firstId: Id, reqs: seq<ItemRequest>)
    requires BuiltFrom(items, budgetId, firstId, reqs)
    ensures RequestsOf(items) == reqs
  {
    assert forall i :: 0 <= i < |reqs| ==> RequestsOf(items)[i] == reqs[i];
  }

  /** The loop of `createBudgetItems`: checks every request, then builds the rows in request order. */
  method CreateBudgetItems(db: BudgetDatabase, userEmail: string, budgetId: Id, firstId: Id, reqs: seq<ItemRequest>)
    returns (r: Result<seq<BudgetItem>, BudgetError>)
    ensures r.Err? <==> ItemsCheck(userEmail, reqs, db.expenseTypes).Some?
    ensures r.Err? ==> r.error == ItemsCheck(userEmail, reqs, db.expenseTypes).value
    ensures r.Ok? ==> BuiltFrom(r.value, budgetId, firstId, reqs)
  {
    var typeError := TypeCheck(userEmail, reqs, db.expenseTypes);
    if typeError.Some? {
      return Err(typeError.value);
    }
    var built := [];
    var i := 0;
    while i < |reqs|
      invariant 0 <= i <= |reqs|
      invariant forall j :: 0 <= j < i ==> WellShaped(reqs[j])
      invariant BuiltFrom(built, budgetId, firstId, reqs[..i])
    {
      var req := reqs[i];
      if req.isOneTime && req.applicableMonth.None? {
        ShapeErrorAt(reqs, i);
        return Err(OneTimeWithoutMonth);
      }
      if !req.isOneTime && req.applicableMonth.Some? {
        ShapeErrorAt(reqs, i);
        return Err(RecurringWithMonth);
      }
      built := built + [BudgetItem(firstId + i, budgetId, req.expenseTypeId, req.amount, req.isOneTime, req.applicableMonth)];
      i := i + 1;
    }
    assert reqs[..i] == reqs;
    return Ok(built);
  }

  // ---------------------------------------------------------------------------
  // Responses and queries

  function ToResponse(b: Budget, types: map<Id, ExpenseType>): (r: BudgetResponse)
    requires ItemTypesResolve(b, types)
    ensures r.id == b.id && r.userEmail == b.userEmail && r.year == b.year && |r.items| == |b.items|
    ensures forall i :: 0 <= i < |b.items| ==>
      var item, t := b.items[i], types[b.items[i].expenseTypeId];
      r.items[i].id == item.id && r.items[i].budgetId == item.budgetId && r.items[i].amount == item.amount
      && r.items[i].isOneTime == item.isOneTime && r.items[i].applicableMonth == item.applicableMonth
      && r.items[i].expenseType == ExpenseTypeSummary(t.id, t.userEmail, t.name, t.icon, t.isMandatory, false)
  {
    BudgetResponse(b.id, b.userEmail, b.year,
      seq(|b.items|, i requires 0 <= i < |b.items| =>
        var item := b.items[i];
        var t := types[item.expenseTypeId];
        BudgetItemResponse(item.id, item.budgetId,
          ExpenseTypeSummary(t.id, t.userEmail, t.name, t.icon, t.isMandatory, false),
          item.amount, item.isOneTime, item.applicableMonth)))
  }

  /** The request an item response stands for: its expense type's id, amount, kind and month. */
  function RequestOfResponse(item: BudgetItemResponse): ItemRequest
  {
    ItemRequest(item.expenseType.id, item.amount, item.isOneTime, item.applicableMonth)
  }

  /**
   * A response lists the stored items in order: reading requests back from it gives the
   * requests of the stored items, and every embedded type is the owner's and not deletable.
   */
  lemma ResponseKeepsItems(b: Budget, types: map<Id, ExpenseType>)
    requires ItemTypesResolve(b, types)
    requires forall t :: t in types ==> types[t].id == t
    ensures var r := ToResponse(b, types);
      && (forall i :: 0 <= i < |r.items| ==> RequestOfResponse(r.items[i]) == RequestsOf(b.items)[i])
      && (forall i :: 0 <= i < |r.items| ==> r.items[i].expenseType.userEmail == b.userEmail && !r.items[i].expenseType.canDelete)
  {
    var r := ToResponse(b, types);
    forall i | 0 <= i < |r.items|
      ensures RequestOfResponse(r.items[i]) == RequestsOf(b.items)[i]
    {
      assert types[b.items[i].expenseTypeId].id == b.items[i].expenseTypeId;
    }
  }

  /** The years in which the user has a budget. */
  function YearsOf(budgets: map<BudgetKey, Budget>, userEmail: string): set<int>
  {
    set k | k in budgets && k.userEmail == userEmail :: k.year
  }

  lemma YearsOfKeys(budgets: map<BudgetKey, Budget>, userEmail: string)
    ensures forall y :: y in YearsOf(budgets, userEmail) <==> BudgetKey(userEmail, y) in budgets
  {
    forall y | y in YearsOf(budgets, userEmail)
      ensures BudgetKey(userEmail, y) in budgets
    {
      var k :| k in budgets && k.userEmail == userEmail && k.year == y;
      assert k == BudgetKey(userEmail, y);
    }
    forall y | BudgetKey(userEmail, y) in budgets
      ensures y in YearsOf(budgets, userEmail)
    {
      var k := BudgetKey(userEmail, y);
      assert k in budgets && k.userEmail == userEmail;
    }
  }

  /** `getBudgets`: each of the user's budgets once, newest year first. */
  function GetBudgets(db: BudgetDatabase, userEmail: string): (r: seq<BudgetResponse>)
    reads db
    requires db.Valid()
    ensures forall i :: 0 <= i < |r| ==>
      r[i].userEmail == userEmail && BudgetKey(userEmail, r[i].year) in db.budgets
      && r[i] == ToResponse(db.budgets[BudgetKey(userEmail, r[i].year)], db.expenseTypes)
    ensures forall i, j :: 0 <= i < j < |r| ==> r[i].year > r[j].year
    ensures forall y :: BudgetKey(userEmail, y) in db.budgets ==> exists i :: 0 <= i < |r| && r[i].year == y
  {
    var budgets, types := db.budgets, db.expenseTypes;
    YearsOfKeys(budgets, userEmail);
    var years := Collections.Descending(YearsOf(budgets, userEmail));
    var r := ResponsesOf(budgets, types, userEmail, years);
    EveryYearListed(r, years, YearsOf(budgets, userEmail));
    r
  }

  /** The responses for the given years of the user's, in that order. */
  function ResponsesOf(budgets: map<BudgetKey, Budget>, types: map<Id, ExpenseType>, userEmail: string, years: seq<int>)
    : (r: seq<BudgetResponse>)
    requires forall i :: 0 <= i < |years| ==> BudgetKey(userEmail, years[i]) in budgets
    requires forall k :: k in budgets ==> ItemTypesResolve(budgets[k], types)
    ensures |r| == |years|
    ensures forall i :: 0 <= i < |r| ==> r[i] == ToResponse(budgets[BudgetKey(userEmail, years[i])], types)
  {
    seq(|years|, i requires 0 <= i < |years| => ToResponse(budgets[BudgetKey(userEmail, years[i])], types))
  }

  lemma EveryYearListed(r: seq<BudgetResponse>, years: seq<int>, s: set<int>)
    requires |r| == |years| && forall i :: 0 <= i < |r| ==> r[i].year == years[i]
    requires forall y :: y in s ==> y in years
    ensures forall y :: y in s ==> exists i :: 0 <= i < |r| && r[i].year == y
  {
    forall y | y in s
      ensures exists i :: 0 <= i < |r| && r[i].year == y
    {
      var j :| 0 <= j < |years| && years[j] == y;
      assert r[j].year == y;
    }
  }

  /** `getBudget`: the user's budget for `year`, or not found. */
  function GetBudget(db: BudgetDatabase, userEmail: string, year: int): (r: Result<BudgetResponse, BudgetError>)
    reads db
    requires db.Valid()
    ensures r.Err? <==> BudgetKey(userEmail, year) !in db.budgets
    ensures r.Err? ==> r.error == BudgetNotFound
    ensures r.Ok? ==>
      (r.value.id == db.budgets[BudgetKey(userEmail, year)].id
       && r.value.userEmail == userEmail && r.value.year == year
       && r.value == ToResponse(db.budgets[BudgetKey(userEmail, year)], db.expenseTypes))
  {
    var key := BudgetKey(userEmail, year);
    if key in db.budgets then Ok(ToResponse(db.budgets[key], db.expenseTypes)) else Err(BudgetNotFound)
  }

  // ---------------------------------------------------------------------------
  // Changes

  function RequestsOrEmpty(items: Option<seq<ItemRequest>>): seq<ItemRequest>
  {
    if items.Some? then items.value else []
  }

  /** `createBudget`: validates the year, stores the budget and its items, or stores nothing. */
  method CreateBudget(db: BudgetDatabase, today: Today, userEmail: string, year: int, items: Option<seq<ItemRequest>>)
    returns (r: Result<BudgetResponse, BudgetError>)
    requires db.Valid()
    modifies db
    ensures db.Valid()
    ensures db.expenseTypes == old(db.expenseTypes)
    ensures var check := CreationCheck(today, year, BudgetKey(userEmail, year) in old(db.budgets));
      check.Some? ==> r == Err(check.value)
    ensures var check := CreationCheck(today, year, BudgetKey(userEmail, year) in old(db.budgets));
      var itemsCheck := ItemsCheck(userEmail, RequestsOrEmpty(items), old(db.expenseTypes));
      check.None? && itemsCheck.Some? ==> r == Err(itemsCheck.value)
    ensures var check := CreationCheck(today, year, BudgetKey(userEmail, year) in old(db.budgets));
      var itemsCheck := ItemsCheck(userEmail, RequestsOrEmpty(items), old(db.expenseTypes));
      check.None? && itemsCheck.None? ==> r.Ok?
    ensures r.Err? ==> db.budgets == old(db.budgets)
    ensures r.Ok? ==>
      var key := BudgetKey(userEmail, year);
      key in db.budgets && key !in old(db.budgets)
      && db.budgets == old(db.budgets)[key := db.budgets[key]]
      && db.budgets[key].id == old(db.nextId)
      && db.budgets[key].userEmail == userEmail && db.budgets[key].year == year
      && BuiltFrom(db.budgets[key].items, old(db.nextId), old(db.nextId) + 1, RequestsOrEmpty(items))
      && r.value == ToResponse(db.budgets[key], db.expenseTypes)
  {
    var key := BudgetKey(userEmail, year);
    var check := CreationCheck(today, year, key in db.budgets);
    if check.Some? {
      return Err(check.value);
    }
    var budgetId := db.nextId;
    var reqs := RequestsOrEmpty(items);
    var built := CreateBudgetItems(db, userEmail, budgetId, budgetId + 1, reqs);
    if built.Err? {
      return Err(built.error);
    }
    var budget := Budget(budgetId, userEmail, year, built.value);
    db.budgets := db.budgets[key := budget];
    db.nextId := budgetId + 1 + |reqs|;
    return Ok(ToResponse(budget, db.expenseTypes));
  }

  /** `updateBudget`: replaces the items of an existing budget with freshly created ones. */
  method UpdateBudget(db: BudgetDatabase, userEmail: string, year: int, items: Option<seq<ItemRequest>>)
    returns (r: Result<BudgetResponse, BudgetError>)
    requires db.Valid()
    modifies db
    ensures db.Valid()
    ensures db.expenseTypes == old(db.expenseTypes)
    ensures BudgetKey(userEmail, year) !in old(db.budgets) ==> r == Err(BudgetNotFound)
    ensures var itemsCheck := ItemsCheck(userEmail, RequestsOrEmpty(items), old(db.expenseTypes));
      BudgetKey(userEmail, year) in old(db.budgets) && itemsCheck.Some? ==> r == Err(itemsCheck.value)
    ensures var itemsCheck := ItemsCheck(userEmail, RequestsOrEmpty(items), old(db.expenseTypes));
      BudgetKey(userEmail, year) in old(db.budgets) && itemsCheck.None? ==> r.Ok?
    ensures r.Err? ==> db.budgets == old(db.budgets)
    ensures r.Ok? ==>
      var key := BudgetKey(userEmail, year);
      key in old(db.budgets) && key in db.budgets
      && db.budgets == old(db.budgets)[key := old(db.budgets)[key].(items := db.budgets[key].items)]
      && BuiltFrom(db.budgets[key].items, old(db.budgets)[key].id, old(db.nextId), RequestsOrEmpty(items))
      && r.value == ToResponse(db.budgets[key], db.expenseTypes)
  {
    var key := BudgetKey(userEmail, year);
    if key !in db.budgets {
      return Err(BudgetNotFound);
    }
    var budget := db.budgets[key];
    var reqs := RequestsOrEmpty(items);
    var built := CreateBudgetItems(db, userEmail, budget.id, db.nextId, reqs);
    if built.Err? {
      return Err(built.error);
    }
    var updated := budget.(items := built.value);
    db.budgets := db.budgets[key := updated];
    db.nextId := db.nextId + |reqs|;
    return Ok(ToResponse(updated, db.expenseTypes));
  }

  /** Whether the transaction service reports a transaction for some item (an absent answer is `null`). */
  predicate SomeItemHasTransactions(items: seq<BudgetItem>, hasTransactions: map<Id, bool>)
  {
    exists i :: 0 <= i < |items| && items[i].id in hasTransactions && hasTransactions[items[i].id]
  }

  /** The loop of `deleteBudget` that asks, item by item, whether transactions exist. */
  method FindItemWithTransactions(items: seq<BudgetItem>, hasTransactions: map<Id, bool>) returns (found: bool)
    ensures found <==> SomeItemHasTransactions(items, hasTransactions)
  {
    var i := 0;
    while i < |items|
      invariant 0 <= i <= |items|
      invariant !SomeItemHasTransactions(items[..i], hasTransactions)
    {
      var answer := if items[i].id in hasTransactions then Some(hasTransactions[items[i].id]) else None;
      if answer.Some? && answer.value {
        return true;
      }
      assert items[..i + 1] == items[..i] + [items[i]];
      i := i + 1;
    }
    assert items[..i] == items;
    return false;
  }

  /** `deleteBudget`: removes a budget with its items unless one of the items has transactions. */
  method DeleteBudget(db: BudgetDatabase, userEmail: string, year: int, hasTransactions: map<Id, bool>)
    returns (r: Result<(), BudgetError>)
    requires db.Valid()
    modifies db
    ensures db.Valid()
    ensures db.expenseTypes == old(db.expenseTypes) && db.nextId == old(db.nextId)
    ensures BudgetKey(userEmail, year) !in old(db.budgets) ==> r == Err(BudgetNotFound)
    ensures var key := BudgetKey(userEmail, year);
      key in old(db.budgets) ==>
        (r == Err(HasTransactions) <==> SomeItemHasTransactions(old(db.budgets)[key].items, hasTransactions))
    ensures var key := BudgetKey(userEmail, year);
      key in old(db.budgets) && !SomeItemHasTransactions(old(db.budgets)[key].items, hasTransactions) ==> r.Ok?
    ensures r.Err? ==> db.budgets == old(db.budgets)
    ensures r.Ok? ==>
      (BudgetKey(userEmail, year) in old(db.budgets) && db.budgets == old(db.budgets) - {BudgetKey(userEmail, year)})
  {
    var key := BudgetKey(userEmail, year);
    if key !in db.budgets {
      return Err(BudgetNotFound);
    }
    var found := FindItemWithTransactions(db.budgets[key].items, hasTransactions);
    if found {
      return Err(HasTransactions);
    }
    db.budgets := db.budgets - {key};
    return Ok(());
  }

  /** The loop of `copyBudget`: one new row per source row, keeping type, amount, kind and month. */
  method CopyItems(source: seq<BudgetItem>, budgetId: Id, firstId: Id) returns (copies: seq<BudgetItem>)
    ensures BuiltFrom(copies, budgetId, firstId, RequestsOf(source))
  {
    copies := [];
    var i := 0;
    while i < |source|
      invariant 0 <= i <= |source|
      invariant BuiltFrom(copies, budgetId, firstId, RequestsOf(source)[..i])
    {
      var item := source[i];
      copies := copies + [BudgetItem(firstId + i, budgetId, item.expenseTypeId, item.amount, item.isOneTime, item.applicableMonth)];
      i := i + 1;
    }
    assert RequestsOf(source)[..i] == RequestsOf(source);
  }

  /** `copyBudget`: a new budget for `toYear` with copies of the `fromYear` budget's items. */
  method CopyBudget(db: BudgetDatabase, today: Today, userEmail: string, fromYear: int, toYear: int)
    returns (r: Result<BudgetResponse, BudgetError>)
    requires db.Valid()
    modifies db
    ensures db.Valid()
    ensures db.expenseTypes == old(db.expenseTypes)
    ensures BudgetKey(userEmail, fromYear) !in old(db.budgets) ==> r == Err(SourceBudgetNotFound)
    ensures var check := CreationCheck(today, toYear, BudgetKey(userEmail, toYear) in old(db.budgets));
      BudgetKey(userEmail, fromYear) in old(db.budgets) ==> (r.Err? <==> check.Some?)
    ensures var check := CreationCheck(today, toYear, BudgetKey(userEmail, toYear) in old(db.budgets));
      BudgetKey(userEmail, fromYear) in old(db.budgets) && check.Some? ==> r == Err(check.value)
    ensures r.Err? ==> db.budgets == old(db.budgets)
    ensures r.Ok? ==>
      var from := BudgetKey(userEmail, fromYear);
      var to := BudgetKey(userEmail, toYear);
      from in old(db.budgets) && to in db.budgets && to !in old(db.budgets)
      && db.budgets == old(db.budgets)[to := db.budgets[to]]
      && db.budgets[to].id == old(db.nextId) && db.budgets[to].userEmail == userEmail && db.budgets[to].year == toYear
      && BuiltFrom(db.budgets[to].items, old(db.nextId), old(db.nextId) + 1, RequestsOf(old(db.budgets)[from].items))
      && r.value == ToResponse(db.budgets[to], db.expenseTypes)
  {
    var from := BudgetKey(userEmail, fromYear);
    if from !in db.budgets {
      return Err(SourceBudgetNotFound);
    }
    var to := BudgetKey(userEmail, toYear);
    var check := CreationCheck(today, toYear, to in db.budgets);
    if check.Some? {
      return Err(check.value);
    }
    var source := db.budgets[from];
    var budgetId := db.nextId;
    var copies := CopyItems(source.items, budgetId, budgetId + 1);
    var budget := Budget(budgetId, userEmail, toYear, copies);
    db.budgets := db.budgets[to := budget];
    db.nextId := budgetId + 1 + |copies|;
    return Ok(ToResponse(budget, db.expenseTypes));
  }

  /** A copied budget holds the same item requests as its source, in the same order. */
  lemma CopyKeepsItems(copies: seq<BudgetItem>, source: seq<BudgetItem>, budgetId: Id, firstId: Id)
    requires BuiltFrom(copies, budgetId, firstId, RequestsOf(source))
    ensures RequestsOf(copies) == RequestsOf(source)
  {
    BuiltFromRoundTrip(copies, budgetId, firstId, RequestsOf(source));
  }
}
