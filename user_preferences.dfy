/**
 * The user service's one table, `user_preferences`: per email, a JSON object of settings and
 * the file name of the avatar, plus the directory of avatar files. A record is keyed by its
 * email, as the column's unique constraint demands. Generated ids come from a counter.
 */
module UserPreferencesEntity {
  import opened Wrappers

  type Id = nat

  /** The JSON values the settings object holds: strings, integers and doubles. */
  datatype PrefValue = Text(text: string) | Whole(whole: int) | Decimal(decimal: real)

  type Prefs = map<string, PrefValue>

  /** A record; `id` is absent until the record is persisted. */
  datatype UserPreferences = UserPreferences(id: Option<Id>, email: string, preferences: Prefs, avatarPath: Option<string>)

  const Currency := "currency"
  const EmergencyFundMonths := "emergencyFundMonths"
  const MonthlySalary := "monthlySalary"
  const EmergencyFundSaved := "emergencyFundSaved"

  /**
   * The settings have the types the response casts them to: a string currency, an integer
   * number of months, and numbers (integer or double) for the amounts.
   */
  predicate WellTyped(p: Prefs)
  {
    (Currency in p ==> p[Currency].Text?)
    && (EmergencyFundMonths in p ==> p[EmergencyFundMonths].Whole?)
    && (MonthlySalary in p ==> !p[MonthlySalary].Text?)
    && (EmergencyFundSaved in p ==> !p[EmergencyFundSaved].Text?)
  }

  /** `createDefault`: USD, three months, no salary; not persisted, so it has no id. */
  function CreateDefault(email: string): (r: UserPreferences)
    ensures r.email == email && r.id.None? && r.avatarPath.None?
    ensures r.preferences.Keys == {Currency, EmergencyFundMonths, MonthlySalary}
    ensures WellTyped(r.preferences)
  {
    UserPreferences(None, email,
      map[Currency := Text("USD"), EmergencyFundMonths := Whole(3), MonthlySalary := Decimal(0.0)], None)
  }

  /** A new, empty record: the entity's field initialiser gives an empty settings object. */
  function NewRecord(email: string): (r: UserPreferences)
    ensures r.email == email && r.id.None? && r.avatarPath.None? && r.preferences == map[]
  {
    UserPreferences(None, email, map[], None)
  }

  /** `(String) getOrDefault("currency", "USD")`. */
  function CurrencyOf(p: Prefs): (r: string)
    requires WellTyped(p)
    ensures Currency !in p ==> r == "USD"
    ensures Currency in p ==> p[Currency] == Text(r)
  {
    if Currency in p then p[Currency].text else "USD"
  }

  /** `(Integer) getOrDefault("emergencyFundMonths", 3)`. */
  function MonthsOf(p: Prefs): (r: int)
    requires WellTyped(p)
    ensures EmergencyFundMonths !in p ==> r == 3
    ensures EmergencyFundMonths in p ==> p[EmergencyFundMonths] == Whole(r)
  {
    if EmergencyFundMonths in p then p[EmergencyFundMonths].whole else 3
  }

  /** `((Number) getOrDefault(key, 0.0)).doubleValue()`: an integer reads as the same amount. */
  function AmountOf(p: Prefs, key: string): (r: real)
    requires key in p ==> !p[key].Text?
    ensures key !in p ==> r == 0.0
    ensures key in p && p[key].Whole? ==> r == p[key].whole as real
    ensures key in p && p[key].Decimal? ==> r == p[key].decimal
  {
    if key !in p then 0.0
    else match p[key]
      case Whole(i) => i as real
      case Decimal(x) => x
  }

  class PreferencesTable {
    var records: map<string, UserPreferences>
    var nextId: nat

    /** Each record sits under its own email, is persisted with an id below the counter, and is well typed. */
    ghost predicate Valid()
      reads this
    {
      forall e :: e in records ==>
        records[e].email == e && records[e].id.Some? && records[e].id.value < nextId
        && WellTyped(records[e].preferences)
    }

    constructor ()
      ensures Valid() && records == map[]
    {
      records := map[];
      nextId := 0;
    }
  }

  /** The avatar directory, as the set of file names in it. */
  class AvatarFiles {
    var names: set<string>

    constructor ()
      ensures names == {}
    {
      names := {};
    }
  }
}
