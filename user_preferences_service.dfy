/**
 * `UserPreferencesService`: read with first-time defaults, and save by merging four settings
 * into the stored object.
 */
module UserPreferencesService {
  import opened Wrappers
  import opened UserPreferencesEntity

  /** The request as the service reads it; a missing `emergencyFundSaved` is stored as 0.0. */
  datatype PreferencesRequest = PreferencesRequest(
    currency: string,
    emergencyFundMonths: int,
    monthlySalary: real,
    emergencyFundSaved: Option<real>)

  datatype PreferencesResponse = PreferencesResponse(
    id: Option<Id>,
    email: string,
    currency: string,
    emergencyFundMonths: int,
    monthlySalary: real,
    emergencyFundSaved: real,
    avatarUrl: Option<string>,
    isFirstTime: bool)

  /** `toResponse`: every missing setting reads as its default. */
  function ToResponse(prefs: UserPreferences, isFirstTime: bool): (r: PreferencesResponse)
    requires WellTyped(prefs.preferences)
    ensures r.id == prefs.id && r.email == prefs.email && r.avatarUrl == prefs.avatarPath && r.isFirstTime == isFirstTime
    ensures r.currency == CurrencyOf(prefs.preferences) && r.emergencyFundMonths == MonthsOf(prefs.preferences)
    ensures r.monthlySalary == AmountOf(prefs.preferences, MonthlySalary)
      && r.emergencyFundSaved == AmountOf(prefs.preferences, EmergencyFundSaved)
  {
    var p := prefs.preferences;
    PreferencesResponse(prefs.id, prefs.email, CurrencyOf(p), MonthsOf(p),
      AmountOf(p, MonthlySalary), AmountOf(p, EmergencyFundSaved), prefs.avatarPath, isFirstTime)
  }

  /** `getPreferences`: the stored record, or the unsaved defaults marked as first time. */
  function GetPreferences(table: PreferencesTable, email: string): (r: PreferencesResponse)
    reads table
    requires table.Valid()
    ensures r.email == email
    ensures r.isFirstTime <==> email !in table.records
    ensures email !in table.records ==>
      r.id.None? && r.avatarUrl.None? && r.currency == "USD" && r.emergencyFundMonths == 3
      && r.monthlySalary == 0.0 && r.emergencyFundSaved == 0.0
    ensures email in table.records ==> r == ToResponse(table.records[email], false)
  {
    if email in table.records then ToResponse(table.records[email], false)
    else ToResponse(CreateDefault(email), true)
  }

  /**
   * `updatePreferences(prefs, request)`: the four settings take the request's values and every
   * other key keeps its value.
   */
  function Merge(p: Prefs, req: PreferencesRequest): (r: Prefs)
    ensures r.Keys == p.Keys + {Currency, EmergencyFundMonths, MonthlySalary, EmergencyFundSaved}
    ensures forall k :: k in p && k !in {Currency, EmergencyFundMonths, MonthlySalary, EmergencyFundSaved} ==> r[k] == p[k]
    ensures WellTyped(r)
  {
    p[Currency := Text(req.currency)]
     [EmergencyFundMonths := Whole(req.emergencyFundMonths)]
     [MonthlySalary := Decimal(req.monthlySalary)]
     [EmergencyFundSaved := Decimal(req.emergencyFundSaved.GetOr(0.0))]
  }

  /** The record a save leaves behind: the existing one, or a new empty one, with the settings merged. */
  function SavedRecord(existing: Option<UserPreferences>, email: string, newId: Id, req: PreferencesRequest): UserPreferences
  {
    var prefs := if existing.Some? then existing.value else NewRecord(email);
    var id := if prefs.id.Some? then prefs.id else Some(newId);
    UserPreferences(id, email, Merge(prefs.preferences, req), prefs.avatarPath)
  }

  function Lookup(table: PreferencesTable, email: string): Option<UserPreferences>
    reads table
  {
    if email in table.records then Some(table.records[email]) else None
  }

  /** `savePreferences`: creates the record on first save, updates it afterwards, and answers as a read would. */
  method SavePreferences(table: PreferencesTable, email: string, req: PreferencesRequest) returns (r: PreferencesResponse)
    requires table.Valid()
    modifies table
    ensures table.Valid()
    ensures table.records == old(table.records)[email := SavedRecord(old(Lookup(table, email)), email, old(table.nextId), req)]
    ensures email in old(table.records) ==>
      table.nextId == old(table.nextId) && table.records[email].id == old(table.records[email].id)
    ensures r == GetPreferences(table, email)
    ensures !r.isFirstTime
  {
    var existing := Lookup(table, email);
    var saved := SavedRecord(existing, email, table.nextId, req);
    if existing.None? {
      table.nextId := table.nextId + 1;
    }
    table.records := table.records[email := saved];
    r := ToResponse(saved, false);
  }

  /** `updatePreferences(email, request)`: exactly `savePreferences`. */
  method UpdatePreferences(table: PreferencesTable, email: string, req: PreferencesRequest) returns (r: PreferencesResponse)
    requires table.Valid()
    modifies table
    ensures table.Valid()
    ensures table.records == old(table.records)[email := SavedRecord(old(Lookup(table, email)), email, old(table.nextId), req)]
    ensures email in old(table.records) ==> table.nextId == old(table.nextId)
    ensures r == GetPreferences(table, email)
  {
    r := SavePreferences(table, email, req);
  }

  /** A read after a save returns the saved values, no longer first time, whatever was stored before. */
  lemma SaveThenGet(existing: Option<UserPreferences>, email: string, newId: Id, req: PreferencesRequest)
    ensures var r := ToResponse(SavedRecord(existing, email, newId, req), false);
      r.email == email && !r.isFirstTime && r.id.Some?
      && r.currency == req.currency && r.emergencyFundMonths == req.emergencyFundMonths
      && r.monthlySalary == req.monthlySalary && r.emergencyFundSaved == req.emergencyFundSaved.GetOr(0.0)
  {
  }

  /** Saving twice with the same request leaves the same settings as saving once. */
  lemma MergeIdempotent(p: Prefs, req: PreferencesRequest)
    ensures Merge(Merge(p, req), req) == Merge(p, req)
  {
  }
}
