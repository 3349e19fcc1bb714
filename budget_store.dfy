/**
 * The budget service's three tables (`budgets`, `budget_items`, `expense_types`) as one
 * in-memory store. A budget is keyed by its owner and year, as the unique constraint
 * `uq_budgets_user_year` demands, and carries its items; expense types are keyed by id.
 * Generated UUIDs are modelled by a counter that is always above every id in use.
 */
module BudgetStore {
  import opened Wrappers

  type Id = nat

  datatype BudgetItem = BudgetItem(
    id: Id,
    budgetId: Id,
    expenseTypeId: Id,
    amount: real,
    isOneTime: bool,
    applicableMonth: Option<int>)

  datatype Budget = Budget(id: Id, userEmail: string, year: int, items: seq<BudgetItem>)

  /** `accumulate` is nullable in stored rows; the service always writes a value. */
  datatype ExpenseType = ExpenseType(
    id: Id,
    userEmail: string,
    name: string,
    icon: string,
    isMandatory: bool,
    accumulate: Option<bool>)

  datatype BudgetKey = BudgetKey(userEmail: string, year: int)

  /** `b` is the row for key `k`, its items are its own, and all its ids are below `bound`. */
  predicate StoredUnder(b: Budget, k: BudgetKey, bound: nat)
  {
    b.userEmail == k.userEmail && b.year == k.year && b.id < bound
    && forall i :: 0 <= i < |b.items| ==> b.items[i].budgetId == b.id && b.items[i].id < bound
  }

  /** The budget's items name expense types that exist and belong to the budget's owner. */
  predicate ItemTypesResolve(b: Budget, types: map<Id, ExpenseType>)
  {
    forall i :: 0 <= i < |b.items| ==>
      b.items[i].expenseTypeId in types && types[b.items[i].expenseTypeId].userEmail == b.userEmail
  }

  class BudgetDatabase {
    var budgets: map<BudgetKey, Budget>
    var expenseTypes: map<Id, ExpenseType>
    var nextId: nat

    /** Each stored budget sits under its own key, and its items point back at it. */
    ghost predicate BudgetsConsistent()
      reads this
    {
      forall k :: k in budgets ==> StoredUnder(budgets[k], k, nextId)
    }

    /** Every item's expense type exists and belongs to the budget's owner. */
    ghost predicate ItemTypesKnown()
      reads this
    {
      forall k :: k in budgets ==> ItemTypesResolve(budgets[k], expenseTypes)
    }

    /** Expense types sit under their ids, and `uq_expense_types_user_name` holds. */
    ghost predicate TypesConsistent()
      reads this
    {
      (forall t :: t in expenseTypes ==> expenseTypes[t].id == t && t < nextId)
      && forall t, u ::
           (t in expenseTypes && u in expenseTypes
            && expenseTypes[t].userEmail == expenseTypes[u].userEmail
            && expenseTypes[t].name == expenseTypes[u].name) ==> t == u
    }

    ghost predicate Valid()
      reads this
    {
      BudgetsConsistent() && ItemTypesKnown() && TypesConsistent()
    }

    constructor ()
      ensures Valid()
      ensures budgets == map[] && expenseTypes == map[]
    {
      budgets := map[];
      expenseTypes := map[];
      nextId := 0;
    }

    /** `budgetItemRepository.countByExpenseTypeId(t) > 0`. */
    predicate UsedByBudgetItems(t: Id)
      reads this
    {
      exists k, i :: k in budgets && 0 <= i < |budgets[k].items| && budgets[k].items[i].expenseTypeId == t
    }

    /** `expenseTypeRepository.existsByUserEmailAndName`. */
    predicate NameTaken(userEmail: string, name: string)
      reads this
    {
      exists t :: t in expenseTypes && expenseTypes[t].userEmail == userEmail && expenseTypes[t].name == name
    }
  }
}
