/**
 * `ExpenseTypeService`: a user's expense categories. Names are unique per user, another
 * user's type reads as missing, and a type that budget items still use cannot be deleted.
 */
module ExpenseTypeService {
  import opened Wrappers
  import opened BudgetStore

  datatype ExpenseTypeRequest = ExpenseTypeRequest(name: string, icon: string, isMandatory: bool, accumulate: Option<bool>)

  datatype ExpenseTypeResponse = ExpenseTypeResponse(
    id: Id,
    userEmail: string,
    name: string,
    icon: string,
    isMandatory: bool,
    accumulate: bool,
    canDelete: bool)

  datatype ExpenseTypeError = ExpenseTypeNotFound | DuplicateName | InUse

  /** `toResponse`: a missing `accumulate` reads as false; deletable exactly when no budget item uses the type. */
  function ToResponse(db: BudgetDatabase, t: ExpenseType): (r: ExpenseTypeResponse)
    reads db
    ensures r.canDelete <==> !db.UsedByBudgetItems(t.id)
    ensures r.accumulate <==> t.accumulate == Some(true)
    ensures r.id == t.id && r.userEmail == t.userEmail && r.name == t.name && r.icon == t.icon
      && r.isMandatory == t.isMandatory
  {
    ExpenseTypeResponse(t.id, t.userEmail, t.name, t.icon, t.isMandatory,
      t.accumulate.GetOr(false), !db.UsedByBudgetItems(t.id))
  }

  /** `getExpenseTypes`: the user's types, and only theirs (the query has no order). */
  function GetExpenseTypes(db: BudgetDatabase, userEmail: string): (r: set<ExpenseTypeResponse>)
    reads db
    requires db.Valid()
    ensures forall x :: x in r ==>
      x.userEmail == userEmail && x.id in db.expenseTypes && db.expenseTypes[x.id].userEmail == userEmail
    ensures forall t :: t in db.expenseTypes && db.expenseTypes[t].userEmail == userEmail ==>
      ToResponse(db, db.expenseTypes[t]) in r
  {
    set t | t in db.expenseTypes && db.expenseTypes[t].userEmail == userEmail :: ToResponse(db, db.expenseTypes[t])
  }

  /** `find("id = ?1").filter(owner)`: a type of someone else's is as good as missing. */
  predicate OwnedBy(db: BudgetDatabase, userEmail: string, id: Id)
    reads db
  {
    id in db.expenseTypes && db.expenseTypes[id].userEmail == userEmail
  }

  /** `getExpenseType`. */
  function GetExpenseType(db: BudgetDatabase, userEmail: string, id: Id): (r: Result<ExpenseTypeResponse, ExpenseTypeError>)
    reads db
    requires db.Valid()
    ensures r.Err? <==> !OwnedBy(db, userEmail, id)
    ensures r.Err? ==> r.error == ExpenseTypeNotFound
    ensures r.Ok? ==> r.value.id == id && r.value.userEmail == userEmail
    ensures r.Ok? ==> r.value == ToResponse(db, db.expenseTypes[id])
  {
    if OwnedBy(db, userEmail, id) then Ok(ToResponse(db, db.expenseTypes[id])) else Err(ExpenseTypeNotFound)
  }

  /** The row written for a request; a missing `accumulate` is stored as false. */
  function FromRequest(id: Id, userEmail: string, req: ExpenseTypeRequest): (r: ExpenseType)
    ensures r.id == id && r.userEmail == userEmail
    ensures r.name == req.name && r.icon == req.icon && r.isMandatory == req.isMandatory
    ensures r.accumulate.Some? && (r.accumulate.value <==> req.accumulate == Some(true))
  {
    ExpenseType(id, userEmail, req.name, req.icon, req.isMandatory, Some(req.accumulate.GetOr(false)))
  }

  /** `createExpenseType`: refuses a name the user already has; otherwise stores a new type. */
  method CreateExpenseType(db: BudgetDatabase, userEmail: string, req: ExpenseTypeRequest)
    returns (r: Result<ExpenseTypeResponse, ExpenseTypeError>)
    requires db.Valid()
    modifies db
    ensures db.Valid()
    ensures db.budgets == old(db.budgets)
    ensures r.Err? <==> old(db.NameTaken(userEmail, req.name))
    ensures r.Err? ==> r.error == DuplicateName && db.expenseTypes == old(db.expenseTypes)
    ensures r.Ok? ==>
      var id := old(db.nextId);
      id !in old(db.expenseTypes)
      && db.expenseTypes == old(db.expenseTypes)[id := FromRequest(id, userEmail, req)]
      && r.value == ToResponse(db, FromRequest(id, userEmail, req))
  {
    if db.NameTaken(userEmail, req.name) {
      return Err(DuplicateName);
    }
    var id := db.nextId;
    var t := FromRequest(id, userEmail, req);
    db.expenseTypes := db.expenseTypes[id := t];
    db.nextId := id + 1;
    assert !db.UsedByBudgetItems(id);
    return Ok(ToResponse(db, t));
  }

  /** `updateExpenseType`: renaming to a name the user already has is refused; the owner never changes. */
  method UpdateExpenseType(db: BudgetDatabase, userEmail: string, id: Id, req: ExpenseTypeRequest)
    returns (r: Result<ExpenseTypeResponse, ExpenseTypeError>)
    requires db.Valid()
    modifies db
    ensures db.Valid()
    ensures db.budgets == old(db.budgets) && db.nextId == old(db.nextId)
    ensures !old(OwnedBy(db, userEmail, id)) ==> r == Err(ExpenseTypeNotFound)
    ensures old(OwnedBy(db, userEmail, id)) ==>
      (r == Err(DuplicateName) <==>
        old(db.expenseTypes[id].name) != req.name && old(db.NameTaken(userEmail, req.name)))
    ensures (old(OwnedBy(db, userEmail, id))
             && !(old(db.expenseTypes[id].name) != req.name && old(db.NameTaken(userEmail, req.name)))) ==> r.Ok?
    ensures r.Err? ==> db.expenseTypes == old(db.expenseTypes)
    ensures r.Ok? ==>
      old(OwnedBy(db, userEmail, id))
      && db.expenseTypes == old(db.expenseTypes)[id := FromRequest(id, userEmail, req)]
      && r.value == ToResponse(db, FromRequest(id, userEmail, req))
  {
    if !OwnedBy(db, userEmail, id) {
      return Err(ExpenseTypeNotFound);
    }
    var current := db.expenseTypes[id];
    if current.name != req.name && db.NameTaken(userEmail, req.name) {
      return Err(DuplicateName);
    }
    var t := FromRequest(id, userEmail, req);
    db.expenseTypes := db.expenseTypes[id := t];
    return Ok(ToResponse(db, t));
  }

  /** `deleteExpenseType`: only an unused type of the user's is removed. */
  method DeleteExpenseType(db: BudgetDatabase, userEmail: string, id: Id) returns (r: Result<(), ExpenseTypeError>)
    requires db.Valid()
    modifies db
    ensures db.Valid()
    ensures db.budgets == old(db.budgets) && db.nextId == old(db.nextId)
    ensures !old(OwnedBy(db, userEmail, id)) ==> r == Err(ExpenseTypeNotFound)
    ensures old(OwnedBy(db, userEmail, id)) ==> (r == Err(InUse) <==> old(db.UsedByBudgetItems(id)))
    ensures old(OwnedBy(db, userEmail, id)) && !old(db.UsedByBudgetItems(id)) ==> r.Ok?
    ensures r.Err? ==> db.expenseTypes == old(db.expenseTypes)
    ensures r.Ok? ==> old(OwnedBy(db, userEmail, id)) && db.expenseTypes == old(db.expenseTypes) - {id}
  {
    if !OwnedBy(db, userEmail, id) {
      return Err(ExpenseTypeNotFound);
    }
    if db.UsedByBudgetItems(id) {
      return Err(InUse);
    }
    db.expenseTypes := db.expenseTypes - {id};
    return Ok(());
  }
}
