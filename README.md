# Personal finance budgeting: a Dafny model

This project models the core of a personal-finance budgeting application. Three back-end
services keep a user's data:

- the **budget service** keeps yearly budgets and their items, and the user's expense types
  (categories);
- the **transaction service** keeps every recorded expense or income and answers paged, filtered
  listings and monthly and yearly spending summaries;
- the **user service** keeps each user's preferences (currency, emergency-fund target, salary)
  and avatar picture.

A web client creates and edits budgets, records transactions against budget items, pages through
them, and shows dashboard cards and charts computed from the services' answers.

Each source file of the core is one Dafny module, named after it. Three shared modules carry no
source of their own:

- `Wrappers` holds `Option`.
- `Collections` holds sums, minimum and maximum, and ascending listings of sets.
- `Calendar` holds ISO dates as `java.time.LocalDate` treats them.

The database tables are classes whose fields the service operations update. A service operation
is a method that takes the table object, `modifies` it, and states its whole new state. An
operation either fails and leaves the table as it was (one transaction), or makes exactly the
stated change. Queries and derived figures are functions, and the client's computations are
functions over the values the server sent. Where the client mutates state step by step, as the
transactions page and the preferences modal do, it is a class. The budget form's item edits are
functions that return the new item list, because each React update replaces the list as a whole.

Money is an exact `real`. Generated UUIDs are natural numbers drawn from a counter that stays
above every id in use, so a new id is always fresh. The current date, the random avatar file
name, and whether a file operation fails are parameters.

Where the code does something other than what the application evidently intends, the model follows the code:

- The budget form's year check accepts the year after next in December (cy+2), which the budget
  service then refuses (`BudgetForm.FormYearCheckLooserThanServer`).
- The budget form's amount check lets an amount that is not a number through, because the
  comparison with 0 is false for NaN (`BudgetForm.ItemError`).
- The transactions page keeps a description filter but never sends it
  (`TransactionsClient.DescriptionNotSent`).
- With a target of 0, the emergency-fund card reads "achieved" at 0% progress
  (`EmergencyFundWidget.ZeroTargetAchievedAtZeroProgress`).
- The preferences modal takes every `image/` type. The user service only takes a fixed list,
  which leaves out WebP (`PreferencesModal.ModalTakesTypesServerRefuses`).
- The preferences endpoint's response leaves out the saved emergency fund, and its save keeps the
  stored value (`UserPreferencesResource.KeepsEmergencyFundSaved`).
- The avatar endpoint creates a missing record with the default settings, while the avatar
  service creates it with none (`AvatarResource.FirstUploadStoresDefaults`,
  `AvatarService.RecordFor`).
- A month outside 1-12 is labelled "undefined" on the dashboard cards (`BurnRateWidget.MonthLabel`).

## Model

| member | source | states |
|---|---|---|
| BudgetStore.BudgetDatabase.constructor | services/budget-service/src/main/java/com/personalfinance/budgetservice/service/BudgetService.java:27-34 | the budget, item and expense-type tables start empty and well-formed |
| BudgetService.CreationCheck | services/budget-service/src/main/java/com/personalfinance/budgetservice/service/BudgetService.java:135-157 | a year is refused exactly when it is past, ahead outside December, more than one year ahead, or already budgeted; a past year is reported as such whatever else holds; "next year only in December" exactly for a later year outside December; "more than one year ahead" exactly for a year beyond next in December; an existing budget is reported only for an otherwise creatable year |
| BudgetService.ShapeError | services/budget-service/src/main/java/com/personalfinance/budgetservice/service/BudgetService.java:177-184 | no error exactly when every one-time item has a month and no recurring item has one; otherwise the error belongs to a misshapen item |
| BudgetService.ShapeErrorAt | services/budget-service/src/main/java/com/personalfinance/budgetservice/service/BudgetService.java:177-184 | the error reported is that of the first misshapen item in list order |
| BudgetService.TypeCheck | services/budget-service/src/main/java/com/personalfinance/budgetservice/service/BudgetService.java:160-174 | no error exactly when every referenced expense type exists and belongs to the user; "not found" exactly when some referenced type is missing; "foreign type" exactly when all exist and some belongs to another user |
| BudgetService.ItemsCheck | services/budget-service/src/main/java/com/personalfinance/budgetservice/service/BudgetService.java:159-184 | the item list is accepted exactly when every item's type exists, is the user's and the item is well-shaped |
| BudgetService.RequestsOf | services/budget-service/src/main/java/com/personalfinance/budgetservice/service/BudgetService.java:186-191 | reading the requests back from stored items keeps one request per item |
| BudgetService.BuiltFromRoundTrip | services/budget-service/src/main/java/com/personalfinance/budgetservice/service/BudgetService.java:186-191 | the rows built for a request list give back exactly that list: type, amount, kind and month are copied field by field |
| BudgetService.CreateBudgetItems | services/budget-service/src/main/java/com/personalfinance/budgetservice/service/BudgetService.java:159-194 | fails exactly when the item checks fail, with their error; otherwise builds one row per request, in request order, under the budget |
| BudgetService.ToResponse | services/budget-service/src/main/java/com/personalfinance/budgetservice/service/BudgetService.java:196-244 | the response carries the budget's id, owner and year, and for each stored item in order its id, budget id, amount, kind and month with its expense type's id, owner, name, icon and mandatory flag, `canDelete` false |
| BudgetService.ResponseKeepsItems | services/budget-service/src/main/java/com/personalfinance/budgetservice/service/BudgetService.java:196-244 | reading item requests back from a response gives the stored items' requests in order, every embedded type is the owner's and none is deletable |
| BudgetService.GetBudgets | services/budget-service/src/main/java/com/personalfinance/budgetservice/service/BudgetService.java:40-44 | lists only the user's budgets, each stored year once, newest year first, every stored year of the user's, and each entry is the full response of the budget stored for its year |
| BudgetService.GetBudget | services/budget-service/src/main/java/com/personalfinance/budgetservice/service/BudgetService.java:46-51 | "not found" exactly when the user has no budget for the year; otherwise the full response of that stored budget with all its items |
| BudgetService.CreateBudget | services/budget-service/src/main/java/com/personalfinance/budgetservice/service/BudgetService.java:53-69 | the year checks come first, then the item checks; any failure stores nothing; when both pass the call succeeds, adding exactly one budget under (user, year) with fresh id and the requested items, and changing no other budget |
| BudgetService.UpdateBudget | services/budget-service/src/main/java/com/personalfinance/budgetservice/service/BudgetService.java:71-85 | "not found" for a missing budget; a failing item check stores nothing; an existing budget with acceptable items is updated, its items replaced wholesale by the new ones, nothing else changed |
| BudgetService.FindItemWithTransactions | services/budget-service/src/main/java/com/personalfinance/budgetservice/service/BudgetService.java:92-99 | the loop finds an item exactly when some item of the budget has transactions |
| BudgetService.DeleteBudget | services/budget-service/src/main/java/com/personalfinance/budgetservice/service/BudgetService.java:87-103 | "not found" for a missing budget; refused exactly when one of its items has transactions; otherwise the call succeeds and removes that budget, items included, and nothing else |
| BudgetService.CopyItems | services/budget-service/src/main/java/com/personalfinance/budgetservice/service/BudgetService.java:120-130 | one new row per source row, in order, keeping type, amount, kind and month |
| BudgetService.CopyBudget | services/budget-service/src/main/java/com/personalfinance/budgetservice/service/BudgetService.java:105-133 | a missing source is reported first; then the target year must pass the creation checks; success adds one budget for the target year holding copies of the source's items and changes no other budget |
| BudgetService.CopyKeepsItems | services/budget-service/src/main/java/com/personalfinance/budgetservice/service/BudgetService.java:120-130 | a copied budget holds the same item requests as its source, in the same order |
| ExpenseTypeService.ToResponse | services/budget-service/src/main/java/com/personalfinance/budgetservice/service/ExpenseTypeService.java:94-107 | `canDelete` holds exactly when no budget item uses the type; a missing `accumulate` reads as false; the other fields are copied |
| ExpenseTypeService.GetExpenseTypes | services/budget-service/src/main/java/com/personalfinance/budgetservice/service/ExpenseTypeService.java:26-30 | lists every type of the user's and no type of another user's |
| ExpenseTypeService.GetExpenseType | services/budget-service/src/main/java/com/personalfinance/budgetservice/service/ExpenseTypeService.java:32-38 | "not found" exactly when the id is missing or the type is another user's; otherwise the response of that stored type |
| ExpenseTypeService.CreateExpenseType | services/budget-service/src/main/java/com/personalfinance/budgetservice/service/ExpenseTypeService.java:40-56 | refused exactly when the user already has a type of that name; otherwise adds one type with a fresh id built from the request, `accumulate` defaulting to false |
| ExpenseTypeService.FromRequest | services/budget-service/src/main/java/com/personalfinance/budgetservice/service/ExpenseTypeService.java:47-52 | the row has the given id and owner and the request's name, icon and mandatory flag; `accumulate` is stored as a value, true exactly when the request says true |
| ExpenseTypeService.UpdateExpenseType | services/budget-service/src/main/java/com/personalfinance/budgetservice/service/ExpenseTypeService.java:58-77 | "not found" for a type the user does not own; a rename to another name the user already has is refused, keeping the same name is not; every other call succeeds, overwriting the fields and keeping id and owner |
| ExpenseTypeService.DeleteExpenseType | services/budget-service/src/main/java/com/personalfinance/budgetservice/service/ExpenseTypeService.java:79-92 | "not found" for a type the user does not own; refused exactly when a budget item uses it; otherwise the call succeeds and removes exactly that type |
| TransactionRepository.TransactionTable.constructor | services/transaction-service/src/main/java/com/personalfinance/transactionservice/repository/TransactionRepository.java:16-17 | the transaction table starts empty and well-formed |
| TransactionRepository.Filter | services/transaction-service/src/main/java/com/personalfinance/transactionservice/repository/TransactionRepository.java:47-48 | exactly the rows that match the query's WHERE clause, each from the table, none invented, no row more often than in the table |
| TransactionRepository.FilterAppend | services/transaction-service/src/main/java/com/personalfinance/transactionservice/repository/TransactionRepository.java:47-48 | filtering distributes over concatenation of row lists |
| TransactionRepository.InsertKeepsOrder | services/transaction-service/src/main/java/com/personalfinance/transactionservice/repository/TransactionRepository.java:30 | inserting a row into a newest-first list keeps it newest first and adds exactly that row |
| TransactionRepository.SortNewestFirst | services/transaction-service/src/main/java/com/personalfinance/transactionservice/repository/TransactionRepository.java:30 | the result is ordered by transaction date, newest first, and is a permutation of the input |
| TransactionRepository.CeilDiv | services/transaction-service/src/main/java/com/personalfinance/transactionservice/repository/TransactionRepository.java:38-40 | the least number of pages of the given size that holds n rows |
| TransactionRepository.PageOf | services/transaction-service/src/main/java/com/personalfinance/transactionservice/repository/TransactionRepository.java:31 | a page never holds more than the page size |
| TransactionRepository.FirstPagesArePrefix | services/transaction-service/src/main/java/com/personalfinance/transactionservice/repository/TransactionRepository.java:31 | the first k pages laid end to end are the first k times page-size rows |
| TransactionRepository.AllPagesCoverRows | services/transaction-service/src/main/java/com/personalfinance/transactionservice/repository/TransactionRepository.java:29-40 | reading every page up to the page count returns every row exactly once, in order |
| TransactionRepository.PageNonEmptyIff | services/transaction-service/src/main/java/com/personalfinance/transactionservice/repository/TransactionRepository.java:29-40 | a page holds rows exactly when its index is below the page count |
| TransactionRepository.Find | services/transaction-service/src/main/java/com/personalfinance/transactionservice/repository/TransactionRepository.java:29-89 | each finder returns at most one page of rows, newest first, all of them the user's and matching the filter |
| TransactionRepository.PageOfSorted | services/transaction-service/src/main/java/com/personalfinance/transactionservice/repository/TransactionRepository.java:30-31 | a page of a newest-first list is itself newest first and is drawn from it |
| TransactionRepository.Count | services/transaction-service/src/main/java/com/personalfinance/transactionservice/repository/TransactionRepository.java:38-98 | each count is the number of matching rows, never more than the table holds |
| TransactionRepository.FindCoversCount | services/transaction-service/src/main/java/com/personalfinance/transactionservice/repository/TransactionRepository.java:29-98 | paging a finder to the end with the matching count's number of pages yields every matching row once |
| TransactionRepository.FindById | services/transaction-service/src/main/java/com/personalfinance/transactionservice/repository/TransactionRepository.java:22-24 | the first row carrying the id, or none exactly when no row carries it |
| TransactionRepository.ExistsByBudgetItemId | services/transaction-service/src/main/java/com/personalfinance/transactionservice/repository/TransactionRepository.java:103-105 | the count of rows on the budget item is positive, which is exactly when some row, of any user, points at it |
| TransactionRepository.CountPositiveIff | services/transaction-service/src/main/java/com/personalfinance/transactionservice/repository/TransactionRepository.java:103-105 | the number of rows naming the budget item is positive exactly when some row names it |
| TransactionRepository.CountByBudgetItemId | services/transaction-service/src/main/java/com/personalfinance/transactionservice/repository/TransactionRepository.java:104 | the count of rows naming the budget item never exceeds the number of rows; `CountPositiveIff` says when it is positive |
| TransactionRepository.TotalAppend | services/transaction-service/src/main/java/com/personalfinance/transactionservice/repository/TransactionRepository.java:114-115 | the sum of a concatenation is the sum of the parts |
| TransactionRepository.MonthQueryMatches | services/transaction-service/src/main/java/com/personalfinance/transactionservice/repository/TransactionRepository.java:110-125 | the month window from day 1 to the month's length selects exactly the user's rows dated in that year and month |
| TransactionRepository.TypeSumOfSingleTypeMonth | services/transaction-service/src/main/java/com/personalfinance/transactionservice/repository/TransactionRepository.java:130-147 | the type-restricted month sum equals the whole month sum when every row of the month has that type |
| TransactionRepository.MonthTotalIsSpent | services/transaction-service/src/main/java/com/personalfinance/transactionservice/repository/TransactionRepository.java:110-147 | summing the amounts of the rows the month window selects, with or without an expense type, gives exactly the user's spending dated in that year and month (of that type), 0 when there is none |
| TransactionRepository.SumByUserEmailAndMonth | services/transaction-service/src/main/java/com/personalfinance/transactionservice/repository/TransactionRepository.java:110-125 | the sum is the user's spending dated in that calendar month, 0 when there is none |
| TransactionRepository.SumByUserEmailExpenseTypeAndMonth | services/transaction-service/src/main/java/com/personalfinance/transactionservice/repository/TransactionRepository.java:130-147 | the sum is the user's spending on that expense type dated in that calendar month, 0 when there is none |
| TransactionRepository.GroupedRows | services/transaction-service/src/main/java/com/personalfinance/transactionservice/repository/TransactionRepository.java:184-190 | the grouped result: keys strictly ascending, every key that occurs in the rows once, each with the sum of its rows |
| TransactionRepository.CollectIntoMap | services/transaction-service/src/main/java/com/personalfinance/transactionservice/repository/TransactionRepository.java:168-171 | the loop builds the map of the given key-value pairs, later pairs overwriting earlier ones |
| TransactionRepository.PutAllDistinct | services/transaction-service/src/main/java/com/personalfinance/transactionservice/repository/TransactionRepository.java:196-199 | with distinct keys the map has exactly those keys, each with its pair's value |
| TransactionRepository.CollectedGroups | services/transaction-service/src/main/java/com/personalfinance/transactionservice/repository/TransactionRepository.java:157-173 | reading the grouped rows into a map gives exactly the group sums |
| TransactionRepository.SumWhereAbsent | services/transaction-service/src/main/java/com/personalfinance/transactionservice/repository/TransactionRepository.java:157-162 | a key that occurs in no row has group sum zero |
| TransactionRepository.SumValuesRemove | services/transaction-service/src/main/java/com/personalfinance/transactionservice/repository/TransactionRepository.java:163-164 | a map's value sum may take out any key first |
| TransactionRepository.SumValuesPointwise | services/transaction-service/src/main/java/com/personalfinance/transactionservice/repository/TransactionRepository.java:163-164 | maps with the same keys and values have the same value sum |
| TransactionRepository.GroupMapStep | services/transaction-service/src/main/java/com/personalfinance/transactionservice/repository/TransactionRepository.java:157-162 | one more row adds its amount to the total of all group sums |
| TransactionRepository.GroupMapTotal | services/transaction-service/src/main/java/com/personalfinance/transactionservice/repository/TransactionRepository.java:157-162 | all group sums together add up to the total of the rows |
| TransactionRepository.GroupSumsAddUp | services/transaction-service/src/main/java/com/personalfinance/transactionservice/repository/TransactionRepository.java:157-162 | whatever map holds the group sums, its values add up to the total of the rows |
| TransactionRepository.SumByExpenseTypeForMonth | services/transaction-service/src/main/java/com/personalfinance/transactionservice/repository/TransactionRepository.java:153-174 | maps each expense type the user spent on in the month to the sum of those rows, and nothing else |
| TransactionRepository.SumByMonthForYear | services/transaction-service/src/main/java/com/personalfinance/transactionservice/repository/TransactionRepository.java:180-202 | maps each month with rows in the year to the sum of that month's rows, and nothing else |
| TransactionRepository.MonthTotalsAddUp | services/transaction-service/src/main/java/com/personalfinance/transactionservice/repository/TransactionRepository.java:180-202 | the month map's keys are months 1 to 12 and its values add up to the year's total |
| Calendar.LengthOfMonth | services/transaction-service/src/main/java/com/personalfinance/transactionservice/repository/TransactionRepository.java:112 | 28 to 31 days; February has 29 exactly in Gregorian leap years; April, June, September and November have 30 |
| Calendar.DateOf | services/transaction-service/src/main/java/com/personalfinance/transactionservice/repository/TransactionRepository.java:111 | a date exactly when the day exists in that month and year |
| Calendar.FirstOfMonth | services/transaction-service/src/main/java/com/personalfinance/transactionservice/repository/TransactionRepository.java:111 | a day of that month no later than any other day of it |
| Calendar.LastOfMonth | services/transaction-service/src/main/java/com/personalfinance/transactionservice/repository/TransactionRepository.java:112 | a day of that month no earlier than any other day of it |
| Calendar.InMonthWindow | services/transaction-service/src/main/java/com/personalfinance/transactionservice/repository/TransactionRepository.java:117-118 | the inclusive range from the first to the last day of a month holds exactly that month's days |
| Calendar.InYearWindow | services/transaction-service/src/main/java/com/personalfinance/transactionservice/repository/TransactionRepository.java:181-182 | the inclusive range January 1 to December 31 holds exactly that year's days |
| TransactionService.SelectQuery | services/transaction-service/src/main/java/com/personalfinance/transactionservice/service/TransactionService.java:39-55 | a date range only when both bounds are given, with the expense type when it is given; a lone bound is ignored |
| TransactionService.GetTransactions | services/transaction-service/src/main/java/com/personalfinance/transactionservice/service/TransactionService.java:27-64 | one page of the selected rows, newest first, with the selected count and the page count, which is the ceiling of count over page size; the page is non-empty exactly when its index is below the page count |
| TransactionService.PagingListsEverything | services/transaction-service/src/main/java/com/personalfinance/transactionservice/service/TransactionService.java:27-64 | asking for pages 0 up to the page count and laying them end to end lists every selected row once, newest first |
| TransactionService.GetTransaction | services/transaction-service/src/main/java/com/personalfinance/transactionservice/service/TransactionService.java:69-77 | a missing row and another user's row are both "not found"; otherwise the caller's row with that id |
| TransactionService.GetTransactionUnique | services/transaction-service/src/main/java/com/personalfinance/transactionservice/service/TransactionService.java:69-77 | with unique ids, reading fails exactly when no row of the caller's has the id |
| TransactionService.CreateTransaction | services/transaction-service/src/main/java/com/personalfinance/transactionservice/service/TransactionService.java:82-95 | appends one row with a fresh id, owned by the caller, holding the request's fields, which then reads back |
| TransactionService.FromRequest | services/transaction-service/src/main/java/com/personalfinance/transactionservice/service/TransactionService.java:84-90 | the row has the given id and owner, and reading the request back from it gives the request unchanged |
| TransactionService.UpdateTransaction | services/transaction-service/src/main/java/com/personalfinance/transactionservice/service/TransactionService.java:100-117 | "not found" exactly when the caller does not own the id; otherwise overwrites that row in place with the request's fields and leaves every other row |
| TransactionService.DeleteTransaction | services/transaction-service/src/main/java/com/personalfinance/transactionservice/service/TransactionService.java:122-131 | "not found" exactly when the caller does not own the id; otherwise removes exactly that row, which then reads as not found |
| TransactionService.GetMonthlySummary | services/transaction-service/src/main/java/com/personalfinance/transactionservice/service/TransactionService.java:136-144 | an invalid month throws; otherwise the total and the number of the user's rows in that month |
| TransactionService.GetExpenseTypeSummary | services/transaction-service/src/main/java/com/personalfinance/transactionservice/service/TransactionService.java:149-155 | one entry per expense type the user spent on in the month, with the sum spent |
| TransactionService.TypeSummaryAddsUp | services/transaction-service/src/main/java/com/personalfinance/transactionservice/service/TransactionService.java:149-155 | the per-type amounts of a month add up to that month's total |
| TransactionService.GetYearlySummary | services/transaction-service/src/main/java/com/personalfinance/transactionservice/service/TransactionService.java:160-167 | the totals of the months with transactions, and the year total as their sum, which is the total of the year's rows |
| TransactionService.GetSpentByExpenseType | services/transaction-service/src/main/java/com/personalfinance/transactionservice/service/TransactionService.java:172-174 | an invalid month throws; otherwise the sum of the user's rows of that type in the month |
| TransactionService.HasBudgetItemTransactions | services/transaction-service/src/main/java/com/personalfinance/transactionservice/service/TransactionService.java:179-181 | true exactly when some row, of any user, books against the budget item |
| UserPreferencesEntity.CreateDefault | services/user-service/src/main/java/com/personalfinance/userservice/service/UserPreferencesService.java:52-60 | the default record: the user's email, no id, no avatar, and exactly the settings currency, emergency-fund months and salary |
| UserPreferencesEntity.NewRecord | services/user-service/src/main/java/com/personalfinance/userservice/entity/UserPreferences.java:26 | a new record has the user's email, no id, no avatar and no settings |
| UserPreferencesEntity.CurrencyOf | services/user-service/src/main/java/com/personalfinance/userservice/service/UserPreferencesService.java:78 | the stored currency, or "USD" when none is stored |
| UserPreferencesEntity.MonthsOf | services/user-service/src/main/java/com/personalfinance/userservice/service/UserPreferencesService.java:79 | the stored number of months, or 3 when none is stored |
| UserPreferencesEntity.AmountOf | services/user-service/src/main/java/com/personalfinance/userservice/service/UserPreferencesService.java:80-81 | the stored amount, an integer read as the same amount, or 0.0 when none is stored |
| UserPreferencesEntity.PreferencesTable.constructor | services/user-service/src/main/java/com/personalfinance/userservice/service/UserPreferencesService.java:18-19 | the preferences table starts empty |
| UserPreferencesEntity.AvatarFiles.constructor | services/user-service/src/main/java/com/personalfinance/userservice/service/AvatarService.java:21 | the avatar directory starts empty |
| UserPreferencesService.ToResponse | services/user-service/src/main/java/com/personalfinance/userservice/service/UserPreferencesService.java:74-87 | id, email, avatar and first-time flag are copied; every missing setting reads as its default |
| UserPreferencesService.GetPreferences | services/user-service/src/main/java/com/personalfinance/userservice/service/UserPreferencesService.java:24-28 | first time exactly when nothing is stored for the email; then USD, 3 months, salary and savings 0 and no id; otherwise the stored record |
| UserPreferencesService.Merge | services/user-service/src/main/java/com/personalfinance/userservice/service/UserPreferencesService.java:62-72 | the four settings take the request's values, a missing saved fund becoming 0.0, and every other key keeps its value |
| UserPreferencesService.MergeIdempotent | services/user-service/src/main/java/com/personalfinance/userservice/service/UserPreferencesService.java:62-72 | saving the same request twice leaves the same settings as saving it once |
| UserPreferencesService.SavePreferences | services/user-service/src/main/java/com/personalfinance/userservice/service/UserPreferencesService.java:30-45 | creates the record on first save with a fresh id and updates it in place afterwards, keeping its id; no other user's record changes; the answer is what a read now returns, never first time |
| UserPreferencesService.UpdatePreferences | services/user-service/src/main/java/com/personalfinance/userservice/service/UserPreferencesService.java:47-50 | behaves exactly as a save |
| UserPreferencesService.SaveThenGet | services/user-service/src/main/java/com/personalfinance/userservice/service/UserPreferencesService.java:30-45 | a read after a save returns the request's values and an id, whatever was stored before |
| UserPreferencesResource.ExtractEmail | services/user-service/src/main/java/com/personalfinance/userservice/resource/UserPreferencesResource.java:59-62 | the email claim when present and non-empty, otherwise the principal's name |
| UserPreferencesResource.ToResponse | services/user-service/src/main/java/com/personalfinance/userservice/resource/UserPreferencesResource.java:70-82 | id, email, avatar and first-time flag are copied, the three settings read with defaults USD, 3 and 0.0; no saved fund is reported |
| UserPreferencesResource.GetPreferences | services/user-service/src/main/java/com/personalfinance/userservice/resource/UserPreferencesResource.java:24-34 | first time exactly when the caller has no record, and then the defaults USD, 3 and 0.0 with no id; otherwise the response of the caller's stored record |
| UserPreferencesResource.PutSettings | services/user-service/src/main/java/com/personalfinance/userservice/resource/UserPreferencesResource.java:64-68 | puts exactly the three settings into the existing map; every other key, the saved fund included, is untouched |
| UserPreferencesResource.KeepsEmergencyFundSaved | services/user-service/src/main/java/com/personalfinance/userservice/resource/UserPreferencesResource.java:64-68 | a save through this endpoint leaves the saved emergency fund as it was |
| UserPreferencesResource.CreateOrUpdatePreferences | services/user-service/src/main/java/com/personalfinance/userservice/resource/UserPreferencesResource.java:36-51 | creates the caller's record on first use, updates it afterwards, changes no other record, and answers as a GET would, not first time |
| UserPreferencesResource.UpdatePreferences | services/user-service/src/main/java/com/personalfinance/userservice/resource/UserPreferencesResource.java:53-57 | behaves exactly as POST |
| UserPreferencesResource.SaveThenGet | services/user-service/src/main/java/com/personalfinance/userservice/resource/UserPreferencesResource.java:36-51 | a read after a save returns the request's three settings and an id |
| AvatarService.LastIndexOf | services/user-service/src/main/java/com/personalfinance/userservice/service/AvatarService.java:108 | the last position holding the character, or -1 when there is none |
| AvatarService.GetExtension | services/user-service/src/main/java/com/personalfinance/userservice/service/AvatarService.java:107-110 | from the last dot to the end when that dot is not the first character, otherwise ".png" |
| AvatarService.GetExtensionExamples | services/user-service/src/main/java/com/personalfinance/userservice/service/AvatarService.java:107-110 | "a.b.jpg" gives ".jpg", ".x" and "noext" give ".png", and "a." gives "." |
| AvatarService.WithAvatar | services/user-service/src/main/java/com/personalfinance/userservice/service/AvatarService.java:58-59 | the record now names the new file and keeps its settings; a record persisted for the first time gets a new id |
| AvatarService.DiskAfterUpload | services/user-service/src/main/java/com/personalfinance/userservice/service/AvatarService.java:50-56 | the directory gains the new file and loses the previous one, if there was one |
| AvatarService.RecordFor | services/user-service/src/main/java/com/personalfinance/userservice/service/AvatarService.java:38-44 | the stored record, or a new one with no settings |
| AvatarService.GetAvatar | services/user-service/src/main/java/com/personalfinance/userservice/service/AvatarService.java:64-82 | 404 "Avatar not found" without a record or path, 404 "Avatar file not found" without the file; success only for the recorded file that exists; an unreadable file throws |
| AvatarService.UploadAvatar | services/user-service/src/main/java/com/personalfinance/userservice/service/AvatarService.java:27-62 | the size is checked before the type, and a refused upload changes nothing; with a failing copy nothing changes; a failing delete of the old file leaves the new file on disk and the record as it was; success records the new name, which a read then returns |
| AvatarService.DeleteAvatar | services/user-service/src/main/java/com/personalfinance/userservice/service/AvatarService.java:84-97 | 404 when there is no avatar to delete; otherwise the file goes, the path is cleared, and a read then answers 404 |
| AvatarResource.StartingRecord | services/user-service/src/main/java/com/personalfinance/userservice/resource/AvatarResource.java:48-52 | the stored record, or the default record with the three settings |
| AvatarResource.UploadAvatar | services/user-service/src/main/java/com/personalfinance/userservice/resource/AvatarResource.java:29-74 | no file or an empty file first, then the size, then the type, each a 400 that changes nothing; an I/O failure answers 500 with the record unchanged; success records the new name |
| AvatarResource.GetAvatar | services/user-service/src/main/java/com/personalfinance/userservice/resource/AvatarResource.java:76-101 | answers as the service does, except that a failed read answers 500 |
| AvatarResource.DeleteAvatar | services/user-service/src/main/java/com/personalfinance/userservice/resource/AvatarResource.java:103-121 | 404 when there is nothing to delete; a failed delete answers 500 and keeps the path; success clears the path and removes the file |
| AvatarResource.FirstUploadStoresDefaults | services/user-service/src/main/java/com/personalfinance/userservice/resource/AvatarResource.java:50-52 | a first upload through this endpoint also stores the default settings USD, 3 and 0.0 |
| TransactionApi.NatToString | frontend/src/lib/api/transaction.ts:66 | the decimal digits of a natural number, most significant first, without leading zeros |
| TransactionApi.IntToString | frontend/src/lib/api/transaction.ts:66 | a number's decimal form, with a minus sign for a negative number |
| TransactionApi.NatToStringRoundTrip | frontend/src/lib/api/transaction.ts:66 | reading the digits back gives the number |
| TransactionApi.IntToStringRoundTrip | frontend/src/lib/api/transaction.ts:66 | parsing a printed integer gives the integer back |
| TransactionApi.IntToStringInjective | frontend/src/lib/api/transaction.ts:66 | different page numbers print differently |
| TransactionApi.Render | frontend/src/lib/api/transaction.ts:69 | an entry is longer than its key |
| TransactionApi.QueryString | frontend/src/lib/api/transaction.ts:69-70 | the query string is empty exactly when there are no entries |
| TransactionApi.List | frontend/src/lib/api/transaction.ts:60-73 | appending the entries one by one yields the URL of the filters |
| TransactionApi.ListParams | frontend/src/lib/api/transaction.ts:61-66 | at most five entries, and none exactly when no string filter is truthy and neither page nor page size is defined |
| TransactionApi.ListUrl | frontend/src/lib/api/transaction.ts:69-70 | the URL starts with the transactions path and is longer exactly when some entry is sent |
| TransactionApi.ListParamsOrdered | frontend/src/lib/api/transaction.ts:63-67 | entries come in the order startDate, endDate, expenseTypeId, page, pageSize, each at most once |
| TransactionApi.ListParamsKeys | frontend/src/lib/api/transaction.ts:63-67 | only the five filter keys are sent; no description is ever sent |
| TransactionApi.StringFiltersSentWhenTruthy | frontend/src/lib/api/transaction.ts:63-65 | each string filter is sent, with its value, exactly when it is present and non-empty |
| TransactionApi.PagingSentWhenDefined | frontend/src/lib/api/transaction.ts:66-67 | page and page size are sent exactly when defined, page 0 included |
| TransactionApi.BareUrlIffNoFilters | frontend/src/lib/api/transaction.ts:69-70 | the URL has no query exactly when no filter is sent |
| TransactionApi.MonthlySummaryParams | frontend/src/lib/api/transaction.ts:92-95 | the summary query holds year then month, as printed numbers |
| TransactionApi.MonthlySummaryUrl | frontend/src/lib/api/transaction.ts:91-97 | the summary URL is the summary path with the year and the month |
| BudgetApi.RecurringItems | frontend/src/components/budget/BudgetForm.tsx:93 | exactly the items that are not one-time |
| BudgetApi.OneTimeItems | frontend/src/components/budget/BudgetForm.tsx:94 | exactly the one-time items |
| BudgetApi.RecurringItemsAppend | frontend/src/components/budget/BudgetForm.tsx:93 | filtering keeps order: the recurring items of a concatenation are those of the first part followed by those of the second |
| BudgetApi.OneTimeItemsAppend | frontend/src/components/budget/BudgetForm.tsx:94 | filtering keeps order: the one-time items of a concatenation are those of the first part followed by those of the second |
| BudgetApi.ItemsPartition | frontend/src/components/budget/BudgetForm.tsx:93-94 | the two lists together hold each item once |
| BudgetApi.TotalsPartition | frontend/src/components/budget/BudgetForm.tsx:93-98 | the recurring total and the one-time total add up to the total of all items |
| BudgetApi.AmountTotalAppend | frontend/src/components/budget/BudgetForm.tsx:97 | the total of a concatenation is the sum of the totals |
| BudgetForm.RecurringTotalAppend | frontend/src/components/budget/BudgetForm.tsx:96-98 | the recurring total of a concatenation is the sum of the parts' totals |
| BudgetForm.RecurringTotal | frontend/src/components/budget/BudgetForm.tsx:93-98 | the total is never negative when no counted amount is; `RecurringTotalAppend` and `OneTimeItemsDoNotCount` give what it adds up |
| BudgetForm.OneTimeItemsDoNotCount | frontend/src/components/budget/BudgetForm.tsx:96-98 | one-time items never contribute to the recurring total |
| BudgetForm.PercentageOfSalary | frontend/src/components/budget/BudgetForm.tsx:100-103 | 0 without a salary, otherwise the recurring total as a percentage of the salary, within 0 to 100 when the total fits the salary |
| BudgetForm.RemainingAmount | frontend/src/components/budget/BudgetForm.tsx:105-107 | what the salary leaves after the recurring total, non-negative exactly when the total fits |
| BudgetForm.AddRecurring | frontend/src/components/budget/BudgetForm.tsx:149-161 | one empty recurring row with no month at the end; the other rows unchanged |
| BudgetForm.AddOneTime | frontend/src/components/budget/BudgetForm.tsx:163-174 | one empty one-time row for the current month at the end; the other rows unchanged |
| BudgetForm.AddingKeepsTotal | frontend/src/components/budget/BudgetForm.tsx:149-174 | adding a row of either kind leaves the recurring total as it was |
| BudgetForm.RemoveItem | frontend/src/components/budget/BudgetForm.tsx:176-178 | exactly the rows without that id remain |
| BudgetForm.RemoveItemAppend | frontend/src/components/budget/BudgetForm.tsx:176-178 | removal keeps the order of the remaining rows |
| BudgetForm.RemoveAbsentItem | frontend/src/components/budget/BudgetForm.tsx:176-178 | removing an id no row carries changes nothing |
| BudgetForm.RemoveUniqueItem | frontend/src/components/budget/BudgetForm.tsx:176-178 | removing the one row with an id leaves the rows around it, in order |
| BudgetForm.RemoveUniqueItemTotal | frontend/src/components/budget/BudgetForm.tsx:176-178 | removing a row lowers the recurring total by exactly what that row counted for |
| BudgetForm.Merge | frontend/src/components/budget/BudgetForm.tsx:182 | the update's fields override the row's; id and kind stay |
| BudgetForm.UpdateItem | frontend/src/components/budget/BudgetForm.tsx:180-184 | the rows with the id take the update; every other row is as it was |
| BudgetForm.UpdateKeepsRows | frontend/src/components/budget/BudgetForm.tsx:180-184 | an update keeps every row's id and kind |
| BudgetForm.EmptyUpdateChangesNothing | frontend/src/components/budget/BudgetForm.tsx:180-184 | an update that sets no field leaves the list as it was |
| BudgetForm.ItemError | frontend/src/components/budget/BudgetForm.tsx:191-201 | a row passes exactly when it has a type, any numeric amount is above 0 and a one-time row has a month; a missing type is reported first |
| BudgetForm.FirstItemError | frontend/src/components/budget/BudgetForm.tsx:191-201 | no row error exactly when every row passes |
| BudgetForm.FirstItemErrorIsFirst | frontend/src/components/budget/BudgetForm.tsx:191-201 | the error reported is that of the first failing row |
| BudgetForm.YearError | frontend/src/components/budget/BudgetForm.tsx:203-212 | the year passes exactly when it is the current year, or a later one in December |
| BudgetForm.ValidateForm | frontend/src/components/budget/BudgetForm.tsx:186-215 | the loop with early returns computes the form's first error |
| BudgetForm.FormAcceptedIff | frontend/src/components/budget/BudgetForm.tsx:186-215 | accepted exactly when there are rows, every row passes, and a new budget's year passes |
| BudgetForm.RowErrorsComeFirst | frontend/src/components/budget/BudgetForm.tsx:191-212 | a row error wins over a year error |
| BudgetForm.ServerYearPassesForm | frontend/src/components/budget/BudgetForm.tsx:203-212 | every year the budget service accepts passes the form's year check |
| BudgetForm.FormYearCheckLooserThanServer | frontend/src/components/budget/BudgetForm.tsx:209-211 | in December the form lets the year after next through, which the budget service refuses |
| BudgetYearView.CanCreateBudget | frontend/src/components/budget/BudgetYearView.tsx:34-41 | shown exactly when there is no budget for this year, or it is December and there is none for next year |
| BudgetYearView.CanCreateIffServerAcceptsSomeYear | frontend/src/components/budget/BudgetYearView.tsx:34-41 | the create button is shown exactly when the budget service would accept a new budget for some year |
| BudgetYearView.MonthsWithOneTime | frontend/src/components/budget/BudgetYearView.tsx:132-135 | every month some one-time item is for, each once, ascending; a missing or zero month is dropped |
| BudgetYearView.OneTimeMonthSet | frontend/src/components/budget/BudgetYearView.tsx:133-134 | a month is in the set exactly when it is not 0 and some one-time item is for it |
| BudgetYearView.CardOf | frontend/src/components/budget/BudgetYearView.tsx:126-135 | the card's counts add up to the number of items; recurring total and months as computed for the budget |
| BudgetYearView.ActionsOf | frontend/src/components/budget/BudgetYearView.tsx:130 | edit, delete and confirm are enabled exactly for this or a later year |
| BudgetYearView.NextConfirm | frontend/src/components/budget/BudgetYearView.tsx:59-68 | cancel clears the pending year; a successful delete clears it and a failed one keeps it; delete asks for confirmation only where it is enabled |
| BudgetYearView.PendingNeverPast | frontend/src/components/budget/BudgetYearView.tsx:229-253 | a year waiting for confirmation is never a past year |
| BudgetYearView.AtMostOneConfirming | frontend/src/components/budget/BudgetYearView.tsx:229 | with distinct years, at most one card shows the confirmation |
| BudgetDetailModal.GrandTotal | frontend/src/components/budget/BudgetDetailModal.tsx:32-37 | the recurring plus the one-time total is the total of every item |
| BudgetDetailModal.CalculatePercentage | frontend/src/components/budget/BudgetDetailModal.tsx:39-42 | 0 when the grand total is 0, otherwise the amount's share of the grand total in percent |
| BudgetDetailModal.PercentageTotalScales | frontend/src/components/budget/BudgetDetailModal.tsx:39-42 | the shares of a list times the grand total are its amount total times 100 |
| BudgetDetailModal.PercentagesAddUpTo100 | frontend/src/components/budget/BudgetDetailModal.tsx:39-42 | with a non-zero grand total, the shares of all items add up to 100 percent |
| BudgetDetailModal.ItemsOfMonth | frontend/src/components/budget/BudgetDetailModal.tsx:44-50 | exactly the one-time items of that month |
| BudgetDetailModal.OneTimeByMonth | frontend/src/components/budget/BudgetDetailModal.tsx:44-50 | one group per month some one-time item is for, each holding that month's one-time items in list order |
| BudgetDetailModal.GroupedIsGroups | frontend/src/components/budget/BudgetDetailModal.tsx:46-49 | pushing each item in turn groups every one-time item under its month, in list order, and makes no other group |
| BudgetDetailModal.EachItemInItsGroup | frontend/src/components/budget/BudgetDetailModal.tsx:44-50 | each one-time item is in the group of its month and in no other |
| BudgetDetailModal.MonthGroupOrder | frontend/src/components/budget/BudgetDetailModal.tsx:148-149 | the months of the groups, each once, in ascending order |
| BudgetDetailModal.EditEnabled | frontend/src/components/budget/BudgetDetailModal.tsx:202-206 | the edit button is enabled exactly when there is an edit handler and the year is not past |
| TransactionsClient.RequestFilters | frontend/src/app/transactions/TransactionsClient.tsx:79-83 | the request asks for the given page with page size 10 and passes the date and type filters through unchanged |
| TransactionsClient.DescriptionNotSent | frontend/src/app/transactions/TransactionsClient.tsx:78-83 | a description typed into the filters does not change the request |
| TransactionsClient.PageRequestHasQuery | frontend/src/app/transactions/TransactionsClient.tsx:79-83 | every page request carries a query |
| TransactionsClient.ListRequest | frontend/src/app/transactions/TransactionsClient.tsx:79-83 | the request is the transactions path followed by a non-empty query |
| TransactionsClient.MonthBudgetTotalSplits | frontend/src/app/transactions/TransactionsClient.tsx:193-201 | the month's budget is the recurring total plus the total of the one-time items for that month |
| TransactionsClient.MonthBudgetTotal | frontend/src/app/transactions/TransactionsClient.tsx:193-201 | with only recurring items the month's budget is the total of all items; with non-negative amounts it lies between 0 and that total |
| TransactionsClient.CalculateBudgetTotal | frontend/src/app/transactions/TransactionsClient.tsx:189-202 | 0 without a budget; otherwise the recurring total plus the selected month's one-time items |
| TransactionsClient.RecurringOnlySameEveryMonth | frontend/src/app/transactions/TransactionsClient.tsx:193-201 | with only recurring items, every month has the same budget total |
| TransactionsClient.TransactionsPage.constructor | frontend/src/app/transactions/TransactionsClient.tsx:24-38 | the page starts with no rows, page 0, no filters, on the given month |
| TransactionsClient.TransactionsPage.LoadTransactions | frontend/src/app/transactions/TransactionsClient.tsx:75-98 | requests the page under the override or else the current filters; page 0 replaces the rows and a later page appends its rows; page number and page count follow the response; a failed request changes nothing |
| TransactionsClient.TransactionsPage.HandleLoadMore | frontend/src/app/transactions/TransactionsClient.tsx:144-148 | asks for the next page exactly when the current page is not the last, and then appends its rows |
| TransactionsClient.TransactionsPage.ApplyFilters | frontend/src/app/transactions/TransactionsClient.tsx:100-103 | keeps the new filters and loads page 0 under them, not under the old ones |
| TransactionsClient.TransactionsPage.ResetFilters | frontend/src/app/transactions/TransactionsClient.tsx:105-108 | clears the filters and loads page 0 without any |
| TransactionsClient.TransactionsPage.LoadMonthlySummary | frontend/src/app/transactions/TransactionsClient.tsx:119-132 | the summary received, or an empty summary for the selected month when the request fails |
| TransactionsClient.TransactionsPage.LoadBudget | frontend/src/app/transactions/TransactionsClient.tsx:134-142 | the selected year's budget, or none when the request fails, leaving a budget total of 0 |
| TransactionsClient.TransactionsPage.ChangeMonth | frontend/src/app/transactions/TransactionsClient.tsx:70-73 | sets the selected month and year and nothing else |
| TransactionsClient.LoadTwoPages | frontend/src/app/transactions/TransactionsClient.tsx:85-92 | loading page 0 and then the next page lists both pages' rows one after the other |
| TransactionForm.BudgetItemsOf | frontend/src/components/transaction/TransactionForm.tsx:80-103 | no options when the budget cannot be loaded; otherwise one option per budget item, in order, with its id, type, name, amount, kind and month |
| TransactionForm.DateMonth | frontend/src/components/transaction/TransactionForm.tsx:107 | the month 1 to 12 of a valid "YYYY-MM-DD" date, or none for a string that is no such date |
| TransactionForm.FindItem | frontend/src/components/transaction/TransactionForm.tsx:110-114 | none exactly when no item matches the type and month; otherwise the first matching item |
| TransactionForm.ExpenseTypeChange | frontend/src/components/transaction/TransactionForm.tsx:105-125 | with a matching item, the form takes the type and books on that item; with none, the form is unchanged and the error is shown |
| TransactionForm.TypeChangeBooksMatchingItem | frontend/src/components/transaction/TransactionForm.tsx:110-121 | a successful type change books on an item of that type that is recurring or for the date's month |
| TransactionForm.DateChange | frontend/src/components/transaction/TransactionForm.tsx:127-143 | the date always changes; with a type chosen the booking moves to the first matching item for the new month, and otherwise stays |
| TransactionForm.RecurringTypeSurvivesDateChange | frontend/src/components/transaction/TransactionForm.tsx:131-141 | with a recurring item of the chosen type, a date change always books on an item of that type |
| TransactionForm.AmountChange | frontend/src/components/transaction/TransactionForm.tsx:235 | text that is not a number, and 0, read as 0; otherwise the number |
| TransactionForm.ValidateForm | frontend/src/components/transaction/TransactionForm.tsx:145-159 | no error exactly when type, budget item, a positive amount and a date are all present; otherwise the first missing one in that order |
| TransactionForm.NewFormRefused | frontend/src/components/transaction/TransactionForm.tsx:42-48 | the blank form of a new transaction is refused for want of a type |
| TransactionForm.UnparsableAmountRefused | frontend/src/components/transaction/TransactionForm.tsx:152-154 | text that is not a number can never be submitted as the amount |
| TransactionForm.AvailableExpenseTypes | frontend/src/components/transaction/TransactionForm.tsx:189-197 | the loop that pushes each type not yet listed computes the distinct types |
| TransactionForm.DistinctTypes | frontend/src/components/transaction/TransactionForm.tsx:189-197 | there are never more options than items, and at least one when there is an item; `DistinctTypesUnique`, `DistinctTypesCover` and `DistinctTypesFirstOccurrence` say which |
| TransactionForm.DistinctTypesUnique | frontend/src/components/transaction/TransactionForm.tsx:189-197 | each type is offered at most once |
| TransactionForm.DistinctTypesCover | frontend/src/components/transaction/TransactionForm.tsx:189-197 | a type is offered exactly when some budget item has it |
| TransactionForm.FirstIndex | frontend/src/components/transaction/TransactionForm.tsx:190 | where a type first occurs among the items, or the item count when it does not |
| TransactionForm.FirstIndexSnoc | frontend/src/components/transaction/TransactionForm.tsx:189-197 | appending an item keeps a first occurrence where it was, or makes the new item the first |
| TransactionForm.DistinctTypesFirstOccurrence | frontend/src/components/transaction/TransactionForm.tsx:189-197 | the options come in order of each type's first occurrence, labelled with the name of that first item |
| TransactionForm.FirstOccurrenceExtends | frontend/src/components/transaction/TransactionForm.tsx:190 | an item of an already listed type adds no option |
| TransactionForm.FirstOccurrenceGrows | frontend/src/components/transaction/TransactionForm.tsx:191-194 | an item of a new type is listed last, with that item's name |
| TransactionForm.SubmitEnabled | frontend/src/components/transaction/TransactionForm.tsx:280 | submit is enabled exactly when nothing is loading and there is a budget item |
| TransactionForm.FailedBudgetLoadBlocksSubmit | frontend/src/components/transaction/TransactionForm.tsx:97-99 | when the budget cannot be loaded, nothing can be submitted |
| MonthYearSelector.FirstIsAfterIsDayOrder | frontend/src/components/ui/MonthYearSelector.tsx:45-50 | whether midnight on the 1st of a month is after `maxDate` depends only on the day of `maxDate`, not its time |
| MonthYearSelector.Prev | frontend/src/components/ui/MonthYearSelector.tsx:24-30 | January steps back to December of the year before; other months step back one within the year; a month stays in 1-12 |
| MonthYearSelector.NextOf | frontend/src/components/ui/MonthYearSelector.tsx:32-43 | December steps on to January of the next year; other months step on one within the year; a month stays in 1-12 |
| MonthYearSelector.HandleNext | frontend/src/components/ui/MonthYearSelector.tsx:32-50 | nothing is reported exactly when the next button is disabled; otherwise the next month is reported |
| MonthYearSelector.IsNextDisabled | frontend/src/components/ui/MonthYearSelector.tsx:45-50 | for a valid moment, the button is disabled exactly when the next month lies after the month of `maxDate` |
| MonthYearSelector.PrevThenNext | frontend/src/components/ui/MonthYearSelector.tsx:24-43 | stepping back and then forward returns to a start that is not beyond `maxDate` |
| MonthYearSelector.NextThenPrev | frontend/src/components/ui/MonthYearSelector.tsx:24-43 | any step forward that takes place is undone by a step back |
| MonthYearSelector.NextDisabledInMaxMonth | frontend/src/components/ui/MonthYearSelector.tsx:45-50 | once the month of `maxDate` is selected, the next button is disabled |
| MonthYearSelector.NextNeverPassesMax | frontend/src/components/ui/MonthYearSelector.tsx:32-50 | a step forward never lands on a month after the month of `maxDate` |
| MonthYearSelector.ShowsCurrentShortcut | frontend/src/components/ui/MonthYearSelector.tsx:52-55 | the "current month" shortcut is shown exactly when the selection is not the current month and year |
| MonthYearSelector.GoToCurrentMonth | frontend/src/components/ui/MonthYearSelector.tsx:57-60 | the shortcut selects the current month, after which the shortcut is hidden |
| MonthYearSelector.MonthName | frontend/src/components/ui/MonthYearSelector.tsx:13-16 | the label of month 1 is January and of month 12 is December |
| MonthlySummaryWidgets.BurnPercentage | frontend/src/components/transaction/MonthlySummaryWidgets.tsx:20 | with a positive budget the percentage times the budget is 100 times the expenses; 0 otherwise |
| MonthlySummaryWidgets.BurnThreshold | frontend/src/components/transaction/MonthlySummaryWidgets.tsx:20 | with a positive budget the burn reaches a threshold t exactly when spending reaches t percent of the budget |
| MonthlySummaryWidgets.BurnWithinBudget | frontend/src/components/transaction/MonthlySummaryWidgets.tsx:20 | spending between 0 and a positive budget burns between 0 and 100 percent |
| MonthlySummaryWidgets.RemainingBudget | frontend/src/components/transaction/MonthlySummaryWidgets.tsx:21 | remainder plus expenses is the budget; the remainder is negative exactly when the expenses exceed the budget |
| MonthlySummaryWidgets.BandOf | frontend/src/components/transaction/MonthlySummaryWidgets.tsx:23-39 | the band is green exactly below 50 and red exactly from 80 |
| MonthlySummaryWidgets.ColoursFollowOneBand | frontend/src/components/transaction/MonthlySummaryWidgets.tsx:23-39 | figure, background, border and bar colours are all the classes of the one band of the percentage |
| MonthlySummaryWidgets.ShowsAlert | frontend/src/components/transaction/MonthlySummaryWidgets.tsx:103-105 | the alert icon shows exactly in the red band |
| MonthlySummaryWidgets.BarWidth | frontend/src/components/transaction/MonthlySummaryWidgets.tsx:107-118 | there is no bar exactly when the budget is not positive; the width never passes 100, equals the percentage up to 100 and is 100 above it |
| MonthlySummaryWidgets.OverspendingFillsBar | frontend/src/components/transaction/MonthlySummaryWidgets.tsx:103-118 | spending at least a positive budget fills the bar and raises the alert |
| ExpenseSummaryWidget.BurnPercentage | frontend/src/components/dashboard/ExpenseSummaryWidget.tsx:12 | the dashboard card's burn percentage is the transactions page's; 0 without a positive budget |
| ExpenseSummaryWidget.GetColorClasses | frontend/src/components/dashboard/ExpenseSummaryWidget.tsx:15-38 | green below 50, orange from 50 below 80, red from 80 |
| ExpenseSummaryWidget.SameBandsAsSummaryCard | frontend/src/components/dashboard/ExpenseSummaryWidget.tsx:15-38 | two percentages in the same band of the transactions page get the same classes on the dashboard |
| ExpenseSummaryWidget.ShowsAlert | frontend/src/components/dashboard/ExpenseSummaryWidget.tsx:56 | the alert icon shows exactly when the colours are red |
| ExpenseSummaryWidget.BarWidth | frontend/src/components/dashboard/ExpenseSummaryWidget.tsx:72 | the width never passes 100, equals the percentage up to 100 and is 100 above it |
| ExpenseSummaryWidget.FooterOf | frontend/src/components/dashboard/ExpenseSummaryWidget.tsx:85-89 | a remainder is shown exactly when the budget exceeds the expenses; the amount shown is never negative and is the remainder or the overrun |
| ExpenseSummaryWidget.ExactSpendIsOverByZero | frontend/src/components/dashboard/ExpenseSummaryWidget.tsx:85-89 | spending exactly the budget reads as over budget by 0 |
| ExpenseSummaryWidget.FooterAgreesWithBurn | frontend/src/components/dashboard/ExpenseSummaryWidget.tsx:12-89 | with a positive budget the footer shows a remainder exactly when the burn is below 100% |
| BurnRateWidget.GetBurnColors | frontend/src/components/dashboard/BurnRateWidget.tsx:28-32 | red from 80, orange from 50 below 80, green below 50 |
| BurnRateWidget.BarWidth | frontend/src/components/dashboard/BurnRateWidget.tsx:88 | the width never passes 100, equals the percentage up to 100 and is 100 above it |
| BurnRateWidget.BadgeOf | frontend/src/components/dashboard/BurnRateWidget.tsx:89-102 | a "+" badge exactly when the item is over budget, showing the percentage above 100; otherwise the percentage itself |
| BurnRateWidget.Overrun | frontend/src/components/dashboard/BurnRateWidget.tsx:123-127 | an "Over by" line exactly for an item over budget, whose amount plus the budget is the spending |
| BurnRateWidget.OverBudgetIsFullAndRed | frontend/src/components/dashboard/BurnRateWidget.tsx:88-89 | an item over budget has a full, red bar |
| BurnRateWidget.NextDisabled | frontend/src/components/dashboard/BurnRateWidget.tsx:42-70 | the next button is disabled exactly on the current month and year |
| BurnRateWidget.NextStaysWithinNow | frontend/src/components/dashboard/BurnRateWidget.tsx:42-70 | from a month not after now, an enabled step forward never passes the current month |
| BurnRateWidget.MonthLabel | frontend/src/components/dashboard/BurnRateWidget.tsx:23-44 | month name, a space and the year for 1-12; "undefined" and the year otherwise |
| BurnRateWidget.MonthLabelsDiffer | frontend/src/components/dashboard/BurnRateWidget.tsx:23-44 | two different months of one year get different labels |
| AccumulationWidget.UsePct | frontend/src/components/dashboard/AccumulationWidget.tsx:82-84 | 0 for a pool that is not positive; never above 100; 100 exactly when the month's spending reaches the pool; below that the share of the pool in percent; not negative for non-negative spending |
| AccumulationWidget.BadgeOf | frontend/src/components/dashboard/AccumulationWidget.tsx:85-102 | a "+" exactly for a remainder that is not negative; the signed magnitude is the remainder |
| AccumulationWidget.BadgeDeterminesRemaining | frontend/src/components/dashboard/AccumulationWidget.tsx:98-102 | two items with the same badge have the same remainder |
| AccumulationWidget.BarColor | frontend/src/components/dashboard/AccumulationWidget.tsx:109 | the bar is emerald exactly when the remainder is not negative |
| AccumulationWidget.NextDisabled | frontend/src/components/dashboard/AccumulationWidget.tsx:38-65 | disabled exactly on the current month and year, as on the burn rate widget |
| AccumulationWidget.MonthLabel | frontend/src/components/dashboard/AccumulationWidget.tsx:24-39 | the same label as the burn rate widget; "undefined" outside months 1-12 |
| EmergencyFundWidget.AcceptedPreferencesGivePositiveTarget | frontend/src/components/dashboard/EmergencyFundWidget.tsx:18 | the target, salary times months, is at least one month's salary for a positive salary and at least one month |
| EmergencyFundWidget.Progress | frontend/src/components/dashboard/EmergencyFundWidget.tsx:18-19 | with a positive target, progress times target is 100 times the savings; 0 otherwise |
| EmergencyFundWidget.ProgressComplete | frontend/src/components/dashboard/EmergencyFundWidget.tsx:19 | with a positive target, the progress reaches 100% exactly when the savings reach the target |
| EmergencyFundWidget.BandOf | frontend/src/components/dashboard/EmergencyFundWidget.tsx:22-46 | green exactly from 100, orange exactly below 50 |
| EmergencyFundWidget.GetColorClasses | frontend/src/components/dashboard/EmergencyFundWidget.tsx:22-46 | the bar is green, blue or orange as the band is |
| EmergencyFundWidget.BarWidth | frontend/src/components/dashboard/EmergencyFundWidget.tsx:74 | the width never passes 100, equals the progress up to 100 and is 100 above it |
| EmergencyFundWidget.FooterOf | frontend/src/components/dashboard/EmergencyFundWidget.tsx:87-91 | "Need" exactly while the savings are below the target, with a positive amount that makes up the difference |
| EmergencyFundWidget.AchievedIffGreen | frontend/src/components/dashboard/EmergencyFundWidget.tsx:19-91 | with a positive target, "achieved" comes exactly with the green band, and the green band with a full bar |
| EmergencyFundWidget.ZeroTargetAchievedAtZeroProgress | frontend/src/components/dashboard/EmergencyFundWidget.tsx:18-91 | with no salary or no months the target is 0, and no savings show "achieved" at 0% progress in the orange band |
| ExpenseDistributionChart.Percentage | frontend/src/components/dashboard/ExpenseDistributionChart.tsx:36 | with a positive total, share times total is 100 times the amount, not negative for a non-negative amount; 0 otherwise |
| ExpenseDistributionChart.ChartData | frontend/src/components/dashboard/ExpenseDistributionChart.tsx:33-46 | one slice per item in input order, keeping its name, amount and icon, with its share, start and colour |
| ExpenseDistributionChart.StartsChain | frontend/src/components/dashboard/ExpenseDistributionChart.tsx:34-41 | the first slice starts at 0 and each next one starts where the one before ends |
| ExpenseDistributionChart.ColoursCycle | frontend/src/components/dashboard/ExpenseDistributionChart.tsx:19-43 | slices eight places apart have the same colour |
| ExpenseDistributionChart.PercentSumScales | frontend/src/components/dashboard/ExpenseDistributionChart.tsx:31-38 | with a positive total, the sum of the shares times the total is 100 times the sum of the amounts |
| ExpenseDistributionChart.SharesAddUpTo100 | frontend/src/components/dashboard/ExpenseDistributionChart.tsx:31-38 | with a positive total the shares add up to exactly 100 |
| ExpenseDistributionChart.LastSliceEndsAt100 | frontend/src/components/dashboard/ExpenseDistributionChart.tsx:34-41 | with a positive total there is a last slice and it ends at 100, closing the donut |
| ExpenseDistributionChart.ChartShownIffPositiveTotal | frontend/src/components/dashboard/ExpenseDistributionChart.tsx:31-86 | with no negative amount, the donut is drawn instead of the empty message exactly when the total is positive |
| ExpenseDistributionChart.LargeArcFlag | frontend/src/components/dashboard/ExpenseDistributionChart.tsx:75 | the flag is 1 exactly for a segment of more than half, and 0 otherwise |
| ExpenseDistributionChart.TwoSharesAtMostSum | frontend/src/components/dashboard/ExpenseDistributionChart.tsx:36 | with no negative amount, two different slices' shares add up to no more than all the shares |
| ExpenseDistributionChart.AtMostOneLargeArc | frontend/src/components/dashboard/ExpenseDistributionChart.tsx:36-75 | with no negative amount, at most one segment takes the long way round |
| MonthlyComparisonChart.MaxValue | frontend/src/components/dashboard/MonthlyComparisonChart.tsx:23-26 | at least 1, at least every value of either year, and either 1 or one of those values |
| MonthlyComparisonChart.NoDataScaleIsOne | frontend/src/components/dashboard/MonthlyComparisonChart.tsx:23-28 | without a positive value the scale is 1 |
| MonthlyComparisonChart.BarHeight | frontend/src/components/dashboard/MonthlyComparisonChart.tsx:95-96 | never negative; at least 8 pixels for a positive value; 0 otherwise; within the chart height for a value up to the scale |
| MonthlyComparisonChart.BarsFit | frontend/src/components/dashboard/MonthlyComparisonChart.tsx:21-96 | every bar of every month fits in the chart height |
| MonthlyComparisonChart.AxisTicks | frontend/src/components/dashboard/MonthlyComparisonChart.tsx:76-80 | five labels from the scale down to 0 in quarters |
| MonthlyComparisonChart.AxisTicksDescend | frontend/src/components/dashboard/MonthlyComparisonChart.tsx:76-80 | on a positive scale the labels strictly decrease |
| Avatar.Upper | frontend/src/components/ui/Avatar.tsx:25-27 | a lower-case ASCII letter becomes its capital; every other character stays |
| Avatar.FirstWord | frontend/src/components/ui/Avatar.tsx:23 | a prefix of the text with no white space, followed by white space or the end |
| Avatar.Words | frontend/src/components/ui/Avatar.tsx:23 | every word is non-empty and contains no white space |
| Avatar.NoWordsIffBlank | frontend/src/components/ui/Avatar.tsx:23 | a name has no words exactly when it is all white space |
| Avatar.TrailingSpaceIgnored | frontend/src/components/ui/Avatar.tsx:23 | white space added at the end does not change the words |
| Avatar.LeadingSpaceIgnored | frontend/src/components/ui/Avatar.tsx:23 | white space added at the start does not change the words |
| Avatar.SpaceRunsCollapse | frontend/src/components/ui/Avatar.tsx:23 | a run of two white-space characters separates words as one does |
| Avatar.GetInitials | frontend/src/components/ui/Avatar.tsx:22-28 | no initials exactly for a blank name; one or two characters, the capitalised first letters of the first two words, or of the only word |
| Avatar.AvatarContent | frontend/src/components/ui/Avatar.tsx:34-38 | the picture exactly when a non-empty source is given; otherwise the initials of the name |
| PreferencesModal.ErrorsOf | frontend/src/components/PreferencesModal.tsx:67-80 | the salary error exactly for a salary that is not positive; the months error exactly outside 1-24 |
| PreferencesModal.ValidIff | frontend/src/components/PreferencesModal.tsx:67-80 | the form is valid exactly with a positive salary and a target of 1 to 24 months |
| PreferencesModal.DefaultFormRefused | frontend/src/components/PreferencesModal.tsx:24-80 | the form as it opens fails on the salary only |
| PreferencesModal.OfferedMonthsValid | frontend/src/components/PreferencesModal.tsx:35-80 | every offered number of months passes once a positive salary is entered |
| PreferencesModal.MonthsChange | frontend/src/components/PreferencesModal.tsx:131 | the months field changes and nothing else does |
| PreferencesModal.OptionChoiceStoresItsMonths | frontend/src/components/PreferencesModal.tsx:131 | choosing an offered option stores the number it stands for |
| PreferencesModal.SalaryChange | frontend/src/components/PreferencesModal.tsx:142 | the salary becomes the number read, or 0 for input that is not a number; nothing else changes |
| PreferencesModal.NonNumericSalaryRefused | frontend/src/components/PreferencesModal.tsx:142 | input that is not a number leaves a salary the form refuses |
| PreferencesModal.AvatarRejection | frontend/src/components/PreferencesModal.tsx:45-58 | too large is reported first; then a type not starting with "image/"; no alert exactly for a file of at most 5 MiB of an image type |
| PreferencesModal.FiveMebibytesTaken | frontend/src/components/PreferencesModal.tsx:48-51 | a PNG of exactly 5 MiB is taken |
| PreferencesModal.ServerTypesPassModal | frontend/src/components/PreferencesModal.tsx:53-56 | every type the user service accepts passes the modal's check |
| PreferencesModal.ModalTakesTypesServerRefuses | frontend/src/components/PreferencesModal.tsx:53-56 | a WebP picture passes the modal but is refused by the user service |
| PreferencesModal.Modal.constructor | frontend/src/components/PreferencesModal.tsx:24-32 | the form opens with the defaults, no file and no errors |
| PreferencesModal.Modal.HandleAvatarChange | frontend/src/components/PreferencesModal.tsx:45-65 | no file changes nothing; a picked file is kept exactly when it passes both checks, and otherwise its alert is returned; the form and errors are unchanged |
| PreferencesModal.Modal.Validate | frontend/src/components/PreferencesModal.tsx:67-80 | the recorded errors are those of the form, and the result says whether there are none |
| PreferencesModal.Modal.HandleSubmit | frontend/src/components/PreferencesModal.tsx:82-98 | the save is called exactly for a valid form, with the form and the picked file; the errors are recorded either way |

## Left out

- HTTP, JAX-RS and REST-client wiring, authentication, sessions and redirects are not modelled. The
  budget REST resource calls service methods with month parameters that the service does not have,
  so the model follows the service. Only `extractEmail` is modelled, as
  `UserPreferencesResource.ExtractEmail`.
- Persistence is modelled as tables holding maps and sequences. Hibernate/Panache, JPQL execution,
  `@PrePersist` timestamps and foreign-key cascades are not modelled.
- Bean Validation annotations on the request objects are library-enforced, so requests are taken as
  they reach the services.
- The database's order among transactions with the same date is unspecified. The model picks one
  order, a stable insertion sort, and proves the properties that hold for any order (sorted, a
  permutation, paging covers every row once).
- `TransactionService.GetTransactions`: requires page >= 0 and pageSize > 0. Panache's behaviour
  outside that range is not modelled.
- Avatar file-system I/O (creating directories, copying, deleting, reading and probing a content
  type) is modelled on a set of file names. Whether such an operation fails, and the random UUID
  that names a new file, are parameters.
- Stored picture bytes, content-type probing and `Files.readAllBytes` are not modelled.
- Clocks (`new Date()`, `LocalDate.now()`) are parameters.
- Time zones are not modelled. JavaScript's `Date` reads a 'YYYY-MM-DD' string as UTC and then
  takes the local month, which can shift the month. The model takes the month from the string's
  month field.
- Concurrency is not modelled: `Promise.all` loads, and stale responses that overwrite newer state.
- Each server reply is a parameter of the handler that receives it.
- JavaScript doubles are modelled as exact reals, so rounding is not modelled. NaN is modelled only
  where the code tests for it, as `None`.
- Number formatting (`toFixed`, `toLocaleString`) is not modelled, and neither is URL
  percent-encoding of query values.
- Rendering is not modelled: CSS beyond the colour classes the properties mention, chart.js
  configuration, and the SVG trigonometry of the donut segments.
- `Avatar.Words`: white space means the six ASCII white-space characters, and upper-casing covers
  ASCII letters only. JavaScript's `\s` and `toUpperCase` also cover Unicode.
- The preferences modal's preview (`FileReader`), alerts, toasts and console output are not
  modelled.
- The carry-forward and burn-rate computations that produce the dashboard items are not part of
  this model. The widgets only display fields the server computes.
- The expense-type icon is carried as an opaque string.
- Purely presentational components with no logic of their own are not modelled.
- Budget items are read back in the order they were inserted. `findByBudgetId` has no `ORDER BY`,
  so this order is the model's choice wherever a response or a copy lists items in order
  (`BudgetService.ToResponse`, `BudgetService.ResponseKeepsItems`, `BudgetService.CopyItems`,
  `BudgetService.CopyKeepsItems`).
- `BudgetDetailModal.MonthGroupOrder`: lists only the groups of a real month. `Object.entries` would
  also render a group under a `null` month, but the budget service refuses a one-time item without a
  month (`BudgetService.ShapeError`), so a budget read back from it never has one.
