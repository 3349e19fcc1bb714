/**
 * `UserPreferencesResource`: the preferences endpoints, which work on the table directly.
 * The caller is taken from the token; a save writes three settings into the stored object
 * in place, and the response has no `emergencyFundSaved`.
 */
module UserPreferencesResource {
  import opened Wrappers
  import opened UserPreferencesEntity

  /** The parts of the bearer token the resource reads. */
  datatype Token = Token(emailClaim: Option<string>, name: string)

  /** `PreferencesRequest`. */
  datatype PreferencesRequest = PreferencesRequest(currency: string, emergencyFundMonths: int, monthlySalary: real)

  /** The resource's response: the service's, without `emergencyFundSaved`. */
  datatype PreferencesResponse = PreferencesResponse(
    id: Option<Id>,
    email: string,
    currency: string,
    emergencyFundMonths: int,
    monthlySalary: real,
    avatarUrl: Option<string>,
    isFirstTime: bool)

  /** The request's bean-validation constraints: 1 to 24 months and a positive salary. */
  predicate ValidRequest(req: PreferencesRequest)
  {
    1 <= req.emergencyFundMonths <= 24 && req.monthlySalary > 0.0
  }

  /** `extractEmail`: the email claim when it is present and non-empty, the principal's name otherwise. */
  function ExtractEmail(token: Token): (email: string)
    ensures token.emailClaim.Some? && token.emailClaim.value != "" ==> email == token.emailClaim.value
    ensures token.emailClaim.None? || token.emailClaim.value == "" ==> email == token.name
    ensures email == "" ==> token.name == ""
  {
    if token.emailClaim.Some? && token.emailClaim.value != "" then token.emailClaim.value else token.name
  }

  /** `toResponse`: a missing setting reads as USD, 3 or 0.0. */
  function ToResponse(prefs: UserPreferences, isFirstTime: bool): (r: PreferencesResponse)
    requires WellTyped(prefs.preferences)
    ensures r.id == prefs.id && r.email == prefs.email && r.avatarUrl == prefs.avatarPath && r.isFirstTime == isFirstTime
    ensures r.currency == CurrencyOf(prefs.preferences) && r.emergencyFundMonths == MonthsOf(prefs.preferences)
      && r.monthlySalary == AmountOf(prefs.preferences, MonthlySalary)
  {
    var p := prefs.preferences;
    PreferencesResponse(prefs.id, prefs.email, CurrencyOf(p), MonthsOf(p), AmountOf(p, MonthlySalary), prefs.avatarPath, isFirstTime)
  }

  /** GET: the caller's record, or the unsaved default record marked as first time. */
  function GetPreferences(table: PreferencesTable, token: Token): (r: PreferencesResponse)
    reads table
    requires table.Valid()
    ensures r.email == ExtractEmail(token)
    ensures r.isFirstTime <==> ExtractEmail(token) !in table.records
    ensures !r.isFirstTime ==> r == ToResponse(table.records[ExtractEmail(token)], false)
    ensures r.isFirstTime ==>
      r.id.None? && r.avatarUrl.None? && r.currency == "USD" && r.emergencyFundMonths == 3 && r.monthlySalary == 0.0
  {
    var email := ExtractEmail(token);
    if email in table.records then ToResponse(table.records[email], false)
    else ToResponse(CreateDefault(email), true)
  }

  /** `updatePreferences(prefs, request)`: puts exactly the three settings; every other key is untouched. */
  function PutSettings(p: Prefs, req: PreferencesRequest): (r: Prefs)
    ensures r.Keys == p.Keys + {Currency, EmergencyFundMonths, MonthlySalary}
    ensures forall k :: k in p && k !in {Currency, EmergencyFundMonths, MonthlySalary} ==> r[k] == p[k]
    ensures WellTyped(p) ==> WellTyped(r)
  {
    p[Currency := Text(req.currency)][EmergencyFundMonths := Whole(req.emergencyFundMonths)][MonthlySalary := Decimal(req.monthlySalary)]
  }

  /** The record a POST leaves behind. */
  function SavedRecord(existing: Option<UserPreferences>, email: string, newId: Id, req: PreferencesRequest): UserPreferences
  {
    var prefs := if existing.Some? then existing.value else NewRecord(email);
    var id := if prefs.id.Some? then prefs.id else Some(newId);
    UserPreferences(id, email, PutSettings(prefs.preferences, req), prefs.avatarPath)
  }

  function Lookup(table: PreferencesTable, email: string): Option<UserPreferences>
    reads table
  {
    if email in table.records then Some(table.records[email]) else None
  }

  /** POST: creates the caller's record on first use, updates it afterwards, and answers as a GET would. */
  method CreateOrUpdatePreferences(table: PreferencesTable, token: Token, req: PreferencesRequest) returns (r: PreferencesResponse)
    requires table.Valid() && ValidRequest(req)
    modifies table
    ensures table.Valid()
    ensures var email := ExtractEmail(token);
      table.records == old(table.records)[email := SavedRecord(old(Lookup(table, email)), email, old(table.nextId), req)]
    ensures ExtractEmail(token) in old(table.records) ==> table.nextId == old(table.nextId)
    ensures r == GetPreferences(table, token) && !r.isFirstTime
  {
    var email := ExtractEmail(token);
    var existing := Lookup(table, email);
    var saved := SavedRecord(existing, email, table.nextId, req);
    if existing.None? {
      table.nextId := table.nextId + 1;
    }
    table.records := table.records[email := saved];
    r := ToResponse(saved, false);
  }

  /** PUT: exactly POST. */
  method UpdatePreferences(table: PreferencesTable, token: Token, req: PreferencesRequest) returns (r: PreferencesResponse)
    requires table.Valid() && ValidRequest(req)
    modifies table
    ensures table.Valid()
    ensures var email := ExtractEmail(token);
      table.records == old(table.records)[email := SavedRecord(old(Lookup(table, email)), email, old(table.nextId), req)]
    ensures ExtractEmail(token) in old(table.records) ==> table.nextId == old(table.nextId)
    ensures r == GetPreferences(table, token) && !r.isFirstTime
  {
    r := CreateOrUpdatePreferences(table, token, req);
  }

  /** A save through this endpoint leaves the saved emergency fund, as the service stored it, as it was. */
  lemma KeepsEmergencyFundSaved(p: Prefs, req: PreferencesRequest)
    requires WellTyped(p)
    ensures AmountOf(PutSettings(p, req), EmergencyFundSaved) == AmountOf(p, EmergencyFundSaved)
  {
  }

  /** A read after a save returns the request's three settings. */
  lemma SaveThenGet(existing: Option<UserPreferences>, email: string, newId: Id, req: PreferencesRequest)
    requires existing.Some? ==> WellTyped(existing.value.preferences)
    ensures var r := ToResponse(SavedRecord(existing, email, newId, req), false);
      r.email == email && r.id.Some? && r.currency == req.currency
      && r.emergencyFundMonths == req.emergencyFundMonths && r.monthlySalary == req.monthlySalary
  {
  }
}
