/**
 * `AvatarService`: upload, read and delete of a user's avatar picture. The file system is the
 * set of names in the avatar directory; the random UUID that names a new file, and whether a
 * file operation throws, are parameters.
 */
module AvatarService {
  import opened Wrappers
  import opened UserPreferencesEntity

  /** `5 * 1024 * 1024` bytes. */
  const MaxFileSize: int := 5 * 1024 * 1024

  const AvatarUrlBody := "{\"avatarUrl\":\"/api/v1/users/avatar\"}"

  /** An HTTP response, or an `IOException` that escapes the method; the record is not yet written when one is thrown. */
  datatype Reply = Reply(status: int, body: string) | Thrown

  /** Where the file operations of an upload fail, if they do. */
  datatype IoOutcome = IoSucceeds | CopyFails | DeleteFails

  /** `isImageType`: the four whitelisted MIME types; an absent type is not an image. */
  predicate IsImageType(contentType: Option<string>)
  {
    contentType.Some? && contentType.value in {"image/png", "image/jpeg", "image/jpg", "image/gif"}
  }

  /** `lastIndexOf(c)`: the last position holding `c`, or -1. */
  function LastIndexOf(s: string, c: char): (i: int)
    ensures -1 <= i < |s|
    ensures i >= 0 ==> s[i] == c && forall j :: i < j < |s| ==> s[j] != c
    ensures i == -1 ==> forall j :: 0 <= j < |s| ==> s[j] != c
  {
    if s == [] then -1
    else if s[|s| - 1] == c then |s| - 1
    else LastIndexOf(s[..|s| - 1], c)
  }

  /** Some '.' stands after the first character. */
  predicate HasInnerDot(fileName: string)
  {
    exists i :: 0 < i < |fileName| && fileName[i] == '.'
  }

  /**
   * `getExtension`: from the last '.' to the end when that '.' is not the first character,
   * and ".png" otherwise.
   */
  function GetExtension(fileName: string): (r: string)
    ensures HasInnerDot(fileName) ==>
      0 < |r| < |fileName| && r == fileName[|fileName| - |r|..] && r[0] == '.'
      && forall j :: 0 < j < |r| ==> r[j] != '.'
    ensures !HasInnerDot(fileName) ==> r == ".png"
  {
    var lastDot := LastIndexOf(fileName, '.');
    if lastDot > 0 then fileName[lastDot..] else ".png"
  }

  lemma GetExtensionExamples()
    ensures GetExtension("a.b.jpg") == ".jpg"
    ensures GetExtension(".x") == ".png"
    ensures GetExtension("noext") == ".png"
    ensures GetExtension("a.") == "."
  {
    assert LastIndexOf("a.b.jpg", '.') == 3 by {
      assert "a.b.jpg"[..6] == "a.b.jp" && "a.b.jp"[..5] == "a.b.j" && "a.b.j"[..4] == "a.b.";
    }
    assert LastIndexOf(".x", '.') == 0 by {
      assert ".x"[..1] == ".";
    }
    assert !HasInnerDot("noext");
  }

  /** The record with the new avatar; a record persisted here for the first time gets `newId`. */
  function WithAvatar(prefs: UserPreferences, newId: Id, name: string): (r: UserPreferences)
    ensures r.avatarPath == Some(name) && r.email == prefs.email && r.preferences == prefs.preferences
    ensures r.id == if prefs.id.Some? then prefs.id else Some(newId)
  {
    UserPreferences(if prefs.id.Some? then prefs.id else Some(newId), prefs.email, prefs.preferences, Some(name))
  }

  /** The directory after copying `name` in and then deleting the old file, if there was one. */
  function DiskAfterUpload(files: set<string>, oldPath: Option<string>, name: string): (r: set<string>)
    ensures oldPath.None? ==> r == files + {name}
    ensures oldPath.Some? && oldPath.value != name ==> r == files + {name} - {oldPath.value}
  {
    (files + {name}) - (if oldPath.Some? then {oldPath.value} else {})
  }

  /** The stored record, or a new empty one. */
  function RecordFor(table: PreferencesTable, email: string): (r: UserPreferences)
    reads table
    requires table.Valid()
    ensures r.email == email && WellTyped(r.preferences)
    ensures email !in table.records ==> r == NewRecord(email)
  {
    if email in table.records then table.records[email] else NewRecord(email)
  }

  /** `getAvatar`: 404 without a record, a path or the file; otherwise the file (an unreadable one throws). */
  function GetAvatar(table: PreferencesTable, files: AvatarFiles, email: string, readFails: bool): (r: Reply)
    reads table, files
    ensures (email !in table.records || table.records[email].avatarPath.None?) ==> r == Reply(404, "Avatar not found")
    ensures (email in table.records && table.records[email].avatarPath.Some?
             && table.records[email].avatarPath.value !in files.names) ==> r == Reply(404, "Avatar file not found")
    ensures r.Reply? && r.status == 200 ==>
      email in table.records && table.records[email].avatarPath == Some(r.body) && r.body in files.names
    ensures r.Thrown? <==>
      (readFails && email in table.records && table.records[email].avatarPath.Some?
       && table.records[email].avatarPath.value in files.names)
  {
    if email !in table.records || table.records[email].avatarPath.None? then Reply(404, "Avatar not found")
    else if table.records[email].avatarPath.value !in files.names then Reply(404, "Avatar file not found")
    else if readFails then Thrown
    else Reply(200, table.records[email].avatarPath.value)
  }

  /**
   * `uploadAvatar`: the size is checked first, then the type. A good upload copies the file in
   * under `uuid` plus the original extension, deletes the previous file and records the new name,
   * creating the record if there was none. When a file operation throws, the record is as before.
   */
  method UploadAvatar(table: PreferencesTable, files: AvatarFiles, email: string, fileName: string,
                      contentType: Option<string>, fileSize: int, uuid: string, io: IoOutcome) returns (r: Reply)
    requires table.Valid()
    modifies table, files
    ensures table.Valid()
    ensures fileSize > MaxFileSize ==> r == Reply(400, "File size exceeds 5MB limit")
    ensures fileSize <= MaxFileSize && !IsImageType(contentType) ==> r == Reply(400, "Only image files are allowed")
    ensures fileSize > MaxFileSize || !IsImageType(contentType) ==>
      table.records == old(table.records) && files.names == old(files.names)
    ensures fileSize <= MaxFileSize && IsImageType(contentType) ==>
      var prefs := old(RecordFor(table, email));
      var name := uuid + GetExtension(fileName);
      if io == CopyFails then
        r == Thrown && table.records == old(table.records) && files.names == old(files.names)
      else if io == DeleteFails && prefs.avatarPath.Some? then
        r == Thrown && table.records == old(table.records) && files.names == old(files.names) + {name}
      else
        r == Reply(200, AvatarUrlBody)
        && table.records == old(table.records)[email := WithAvatar(prefs, old(table.nextId), name)]
        && files.names == DiskAfterUpload(old(files.names), prefs.avatarPath, name)
        && (prefs.avatarPath != Some(name) ==> GetAvatar(table, files, email, false) == Reply(200, name))
  {
    if fileSize > MaxFileSize {
      return Reply(400, "File size exceeds 5MB limit");
    }
    if !IsImageType(contentType) {
      return Reply(400, "Only image files are allowed");
    }
    var prefs := RecordFor(table, email);
    var name := uuid + GetExtension(fileName);
    if io == CopyFails {
      return Thrown;
    }
    files.names := files.names + {name};
    if prefs.avatarPath.Some? {
      if io == DeleteFails {
        return Thrown;
      }
      files.names := files.names - {prefs.avatarPath.value};
    }
    var saved := WithAvatar(prefs, table.nextId, name);
    if prefs.id.None? {
      table.nextId := table.nextId + 1;
    }
    table.records := table.records[email := saved];
    return Reply(200, AvatarUrlBody);
  }

  /** `deleteAvatar`: 404 when there is nothing to delete; otherwise the file goes and the path is cleared. */
  method DeleteAvatar(table: PreferencesTable, files: AvatarFiles, email: string, deleteFails: bool) returns (r: Reply)
    requires table.Valid()
    modifies table, files
    ensures table.Valid() && table.nextId == old(table.nextId)
    ensures var had := email in old(table.records) && old(table.records[email].avatarPath).Some?;
      if !had then
        r == Reply(404, "No avatar to delete") && table.records == old(table.records) && files.names == old(files.names)
      else if deleteFails then
        r == Thrown && table.records == old(table.records) && files.names == old(files.names)
      else
        var prefs := old(table.records[email]);
        r == Reply(204, "")
        && table.records == old(table.records)[email := prefs.(avatarPath := None)]
        && files.names == old(files.names) - {prefs.avatarPath.value}
        && GetAvatar(table, files, email, false) == Reply(404, "Avatar not found")
  {
    if email !in table.records || table.records[email].avatarPath.None? {
      return Reply(404, "No avatar to delete");
    }
    var prefs := table.records[email];
    if deleteFails {
      return Thrown;
    }
    files.names := files.names - {prefs.avatarPath.value};
    table.records := table.records[email := prefs.(avatarPath := None)];
    return Reply(204, "");
  }
}
