/**
 * `AvatarResource`: the avatar endpoints, which work on the table directly. They reject an
 * empty upload before the checks `AvatarService` makes, give a missing record the default
 * settings, and answer a failed file operation with 500 instead of throwing.
 */
module AvatarResource {
  import opened Wrappers
  import opened UserPreferencesEntity
  import opened AvatarService
  import UserPreferencesResource

  /** The multipart `file` part of the request. */
  datatype Upload = Upload(size: int, contentType: Option<string>, fileName: string)

  /** The record an upload starts from: the stored one, or the default record. */
  function StartingRecord(table: PreferencesTable, email: string): (r: UserPreferences)
    reads table
    requires table.Valid()
    ensures r.email == email && WellTyped(r.preferences)
    ensures email !in table.records ==> r == CreateDefault(email)
  {
    if email in table.records then table.records[email] else CreateDefault(email)
  }

  /**
   * POST: no file or an empty one first, then the size, then the type. A good upload stores
   * the new name only after the copy and the old file's delete succeed; otherwise it answers
   * 500 and the record is as before.
   */
  method UploadAvatar(table: PreferencesTable, files: AvatarFiles, token: UserPreferencesResource.Token,
                      file: Option<Upload>, uuid: string, io: IoOutcome) returns (r: Reply)
    requires table.Valid()
    modifies table, files
    ensures table.Valid() && r.Reply?
    ensures file.None? || file.value.size == 0 ==> r == Reply(400, "No file uploaded")
    ensures file.Some? && file.value.size != 0 && file.value.size > MaxFileSize ==> r == Reply(400, "File size exceeds 5MB limit")
    ensures file.Some? && file.value.size != 0 && file.value.size <= MaxFileSize && !IsImageType(file.value.contentType) ==>
      r == Reply(400, "Only image files are allowed")
    ensures r.status == 400 ==> table.records == old(table.records) && files.names == old(files.names)
    ensures file.Some? && file.value.size != 0 && file.value.size <= MaxFileSize && IsImageType(file.value.contentType) ==>
      var email := UserPreferencesResource.ExtractEmail(token);
      var prefs := old(StartingRecord(table, email));
      var name := uuid + GetExtension(file.value.fileName);
      if io == CopyFails then
        r == Reply(500, "Failed to upload avatar") && table.records == old(table.records) && files.names == old(files.names)
      else if io == DeleteFails && prefs.avatarPath.Some? then
        r == Reply(500, "Failed to upload avatar") && table.records == old(table.records)
        && files.names == old(files.names) + {name}
      else
        r == Reply(200, AvatarUrlBody)
        && table.records == old(table.records)[email := WithAvatar(prefs, old(table.nextId), name)]
        && files.names == DiskAfterUpload(old(files.names), prefs.avatarPath, name)
  {
    if file.None? || file.value.size == 0 {
      return Reply(400, "No file uploaded");
    }
    if file.value.size > MaxFileSize {
      return Reply(400, "File size exceeds 5MB limit");
    }
    if !IsImageType(file.value.contentType) {
      return Reply(400, "Only image files are allowed");
    }
    var email := UserPreferencesResource.ExtractEmail(token);
    var prefs := StartingRecord(table, email);
    var name := uuid + GetExtension(file.value.fileName);
    if io == CopyFails {
      return Reply(500, "Failed to upload avatar");
    }
    files.names := files.names + {name};
    if prefs.avatarPath.Some? {
      if io == DeleteFails {
        return Reply(500, "Failed to upload avatar");
      }
      files.names := files.names - {prefs.avatarPath.value};
    }
    var saved := WithAvatar(prefs, table.nextId, name);
    if prefs.id.None? {
      table.nextId := table.nextId + 1;
    }
    table.records := table.records[email := saved];
    return Reply(200, AvatarUrlBody);
  }

  /** GET: as the service, except that a failed read answers 500. */
  function GetAvatar(table: PreferencesTable, files: AvatarFiles, token: UserPreferencesResource.Token, readFails: bool): (r: Reply)
    reads table, files
    ensures r.Reply?
    ensures var s := AvatarService.GetAvatar(table, files, UserPreferencesResource.ExtractEmail(token), readFails);
      if s.Thrown? then r == Reply(500, "Failed to read avatar") else r == s
  {
    var email := UserPreferencesResource.ExtractEmail(token);
    var s := AvatarService.GetAvatar(table, files, email, readFails);
    if s.Thrown? then Reply(500, "Failed to read avatar") else s
  }

  /** DELETE: 404 when there is nothing to delete; a failed delete answers 500 and keeps the path. */
  method DeleteAvatar(table: PreferencesTable, files: AvatarFiles, token: UserPreferencesResource.Token, deleteFails: bool)
    returns (r: Reply)
    requires table.Valid()
    modifies table, files
    ensures table.Valid() && table.nextId == old(table.nextId) && r.Reply?
    ensures var email := UserPreferencesResource.ExtractEmail(token);
      var had := email in old(table.records) && old(table.records[email].avatarPath).Some?;
      if !had then
        r == Reply(404, "No avatar to delete") && table.records == old(table.records) && files.names == old(files.names)
      else if deleteFails then
        r == Reply(500, "Failed to delete avatar") && table.records == old(table.records) && files.names == old(files.names)
      else
        var prefs := old(table.records[email]);
        r == Reply(204, "")
        && table.records == old(table.records)[email := prefs.(avatarPath := None)]
        && files.names == old(files.names) - {prefs.avatarPath.value}
        && GetAvatar(table, files, token, false) == Reply(404, "Avatar not found")
  {
    var email := UserPreferencesResource.ExtractEmail(token);
    if email !in table.records || table.records[email].avatarPath.None? {
      return Reply(404, "No avatar to delete");
    }
    var prefs := table.records[email];
    if deleteFails {
      return Reply(500, "Failed to delete avatar");
    }
    files.names := files.names - {prefs.avatarPath.value};
    table.records := table.records[email := prefs.(avatarPath := None)];
    return Reply(204, "");
  }

  /** An upload through this endpoint for a user without a record stores the default settings with the avatar. */
  lemma FirstUploadStoresDefaults(email: string, newId: Id, name: string)
    ensures var r := WithAvatar(CreateDefault(email), newId, name);
      r.preferences.Keys == {Currency, EmergencyFundMonths, MonthlySalary}
      && CurrencyOf(r.preferences) == "USD" && MonthsOf(r.preferences) == 3 && AmountOf(r.preferences, MonthlySalary) == 0.0
      && r.id == Some(newId) && r.avatarPath == Some(name)
  {
  }
}
