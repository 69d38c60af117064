/**
 * The user-management panel of `src/components/UserPermissionsModal.tsx`:
 * the guard chain in front of `addUser` and `updateUser`, the permission
 * checkboxes, and the activity-log filter. The panel drives its own
 * `AuthStore`.
 */
module Permissions {
  import opened Wrappers
  import Seqs
  import Text
  import Auth

  /** The add-user form. */
  datatype NewUserForm = NewUserForm(username: string, password: string, confirmPassword: string, permissions: seq<string>)

  /** The edit form. */
  datatype EditForm = EditForm(username: string, password: string, permissions: seq<string>)

  /** A flash message: `{type, text}`. */
  datatype Message = Message(isError: bool, text: string)

  /** A date bound of the log filter: an empty input, an input that is not a date, or a calendar day (days since 1970-01-01). */
  datatype DateBound = NoBound | InvalidDate | Day(day: int)

  /** `activityFilter`. */
  datatype LogFilter = LogFilter(username: string, action: string, dateFrom: DateBound, dateTo: DateBound)

  /** Why `handleAddUser` stops, in the order the checks run. */
  datatype AddUserError = EmptyUsername | EmptyPassword | PasswordMismatch | NoPermissions

  const DefaultPermissions: seq<string> := ["dashboard"]
  const MillisPerDay: int := 86_400_000
  /** `T23:59:59`: the offset of the upper date bound within its day. */
  const EndOfDayOffset: int := 86_399_000
  const SettingsPage: string := "settings"
  const AddedAction: string := "Yeni Kullanıcı Ekledi"
  const UpdatedAction: string := "Kullanıcı Güncelledi"
  const DeletedAction: string := "Kullanıcı Sildi"

  const EmptyFilter: LogFilter := LogFilter("", "", NoBound, NoBound)

  /** The form `handleAddUser` resets to. */
  function BlankNewUser(): NewUserForm {
    NewUserForm("", "", "", DefaultPermissions)
  }

  /** The text of each validation message. */
  function ErrorText(e: AddUserError): string {
    match e
    case EmptyUsername => "Kullanıcı adı boş olamaz!"
    case EmptyPassword => "Şifre boş olamaz!"
    case PasswordMismatch => "Şifreler eşleşmiyor!"
    case NoPermissions => "En az bir sayfa izni seçmelisiniz!"
  }

  /**
   * The guard chain of `handleAddUser`: a blank username, then a blank
   * password, then a confirmation that differs, then an empty permission list;
   * None when every check passes.
   */
  function ValidateNewUser(form: NewUserForm): Option<AddUserError> {
    if Text.AllSpace(form.username) then Some(EmptyUsername)
    else if Text.AllSpace(form.password) then Some(EmptyPassword)
    else if form.password != form.confirmPassword then Some(PasswordMismatch)
    else if |form.permissions| == 0 then Some(NoPermissions)
    else None
  }

  /**
   * Each error is reported exactly when its check fails and every earlier
   * check passes; a form passes when all four checks do.
   */
  lemma ValidationOrder(form: NewUserForm)
    ensures var r := ValidateNewUser(form);
      (r == Some(EmptyUsername) <==> Text.AllSpace(form.username))
      && (r == Some(EmptyPassword) <==> !Text.AllSpace(form.username) && Text.AllSpace(form.password))
      && (r == Some(PasswordMismatch) <==>
            !Text.AllSpace(form.username) && !Text.AllSpace(form.password) && form.password != form.confirmPassword)
      && (r == Some(NoPermissions) <==>
            !Text.AllSpace(form.username) && !Text.AllSpace(form.password) && form.password == form.confirmPassword
            && form.permissions == [])
      && (r.None? <==>
            !Text.AllSpace(form.username) && !Text.AllSpace(form.password) && form.password == form.confirmPassword
            && form.permissions != [])
  {
  }

  /**
   * The record handed to `addUser`: the username and password as typed (the
   * trim is only a test), never an administrator, never full access.
   */
  function NewUserRecord(form: NewUserForm): (rec: Auth.NewUser)
    ensures rec.username == form.username && rec.password == form.password
    ensures !rec.isAdmin && !rec.hasFullAccess
    ensures rec.permissions == Some(form.permissions) && rec.lastLogin.None?
  {
    Auth.NewUser(form.username, form.password, false, false, Some(form.permissions), None)
  }

  /** Surrounding spaces pass the blank-username check and are stored as typed. */
  lemma UsernameStoredUntrimmed()
    ensures ValidateNewUser(NewUserForm(" ali ", "pw", "pw", ["home"])).None?
    ensures NewUserRecord(NewUserForm(" ali ", "pw", "pw", ["home"])).username == " ali "
  {
    assert !Text.IsSpace(" ali "[1]) && !Text.IsSpace("pw"[0]);
  }

  /** The default permission of a new user, `dashboard`, is not one of the pages the store knows. */
  lemma DefaultPermissionIsNotAPage()
    ensures forall id :: id in DefaultPermissions ==> id !in Auth.PageIds(Auth.AllPages)
  {
    var ids := Auth.PageIds(Auth.AllPages);
    assert ids == ["home", "finans", "calendar", "settings"];
  }

  /**
   * The checkbox handler: a present id is removed everywhere it occurs, an
   * absent one is appended.
   */
  function TogglePermission(perms: seq<string>, pageId: string): (r: seq<string>)
    ensures pageId in perms ==> r == Seqs.Keep(perms, p => p != pageId)
    ensures pageId !in perms ==> r == perms + [pageId]
    ensures pageId in r <==> pageId !in perms
  {
    if pageId in perms then
      Seqs.KeepContents(perms, p => p != pageId);
      Seqs.Keep(perms, p => p != pageId)
    else perms + [pageId]
  }

  /** Removing an id keeps every other id, in order and as often as before. */
  lemma ToggleOffKeepsOthers(perms: seq<string>, pageId: string, other: string)
    requires pageId in perms && other != pageId
    ensures multiset(TogglePermission(perms, pageId))[other] == multiset(perms)[other]
    ensures pageId !in TogglePermission(perms, pageId)
  {
    Seqs.KeepContents(perms, p => p != pageId);
  }

  /** Toggling an absent id twice gives the original list back. */
  lemma ToggleTwiceRestores(perms: seq<string>, pageId: string)
    requires pageId !in perms
    ensures TogglePermission(TogglePermission(perms, pageId), pageId) == perms
  {
    var added := perms + [pageId];
    var p := (x: string) => x != pageId;
    Seqs.KeepAppend(perms, [pageId], p);
    Seqs.KeepAll(perms, p);
    assert Seqs.Keep([pageId], p) == [] by {
      assert [pageId][1..] == [];
    }
  }

  /** `!query || text.toLowerCase().includes(query.toLowerCase())`. */
  predicate MatchesText(text: string, query: string) {
    query == [] || Text.Contains(Text.ToLower(text), Text.ToLower(query))
  }

  /** Lower-casing twice is lower-casing once. */
  lemma ToLowerIdempotent(s: string)
    ensures Text.ToLower(Text.ToLower(s)) == Text.ToLower(s)
  {
  }

  /** The text match ignores ASCII case on both sides. */
  lemma MatchIgnoresCase(text: string, query: string)
    requires query != []
    ensures MatchesText(Text.ToLower(text), query) == MatchesText(text, query)
    ensures MatchesText(text, Text.ToLower(query)) == MatchesText(text, query)
  {
    ToLowerIdempotent(text);
    ToLowerIdempotent(query);
  }

  /**
   * The instant a lower bound denotes: a date-only input is read as midnight
   * UTC of that day.
   */
  function FromInstant(day: int): int {
    day * MillisPerDay
  }

  /**
   * The instant an upper bound denotes: `<day>T23:59:59` is read in local time,
   * so the zone offset (minutes west of UTC, as `getTimezoneOffset` gives it)
   * is added.
   */
  function ToInstant(day: int, zoneOffsetMinutes: int): int {
    day * MillisPerDay + EndOfDayOffset + zoneOffsetMinutes * 60_000
  }

  /**
   * The date test of `filteredLogs`: no test without bounds; an input that is
   * not a date makes every comparison false; otherwise both bounds are
   * inclusive.
   */
  predicate MatchesDate(timestamp: int, filter: LogFilter, zoneOffsetMinutes: int) {
    (filter.dateFrom.NoBound? || (filter.dateFrom.Day? && timestamp >= FromInstant(filter.dateFrom.day)))
    && (filter.dateTo.NoBound? || (filter.dateTo.Day? && timestamp <= ToInstant(filter.dateTo.day, zoneOffsetMinutes)))
  }

  /** One log passes the filter. */
  predicate MatchesLog(log: Auth.Log, filter: LogFilter, zoneOffsetMinutes: int) {
    MatchesText(log.username, filter.username)
    && MatchesText(log.action, filter.action)
    && MatchesDate(log.timestamp, filter, zoneOffsetMinutes)
  }

  /** `filteredLogs`. */
  function FilterLogs(logs: seq<Auth.Log>, filter: LogFilter, zoneOffsetMinutes: int): (r: seq<Auth.Log>)
    ensures |r| <= |logs|
    ensures forall i :: 0 <= i < |r| ==> MatchesLog(r[i], filter, zoneOffsetMinutes)
  {
    Seqs.Keep(logs, log => MatchesLog(log, filter, zoneOffsetMinutes))
  }

  /** The empty filter shows every log, in order. */
  lemma EmptyFilterKeepsAll(logs: seq<Auth.Log>, zoneOffsetMinutes: int)
    ensures FilterLogs(logs, EmptyFilter, zoneOffsetMinutes) == logs
  {
    Seqs.KeepAll(logs, log => MatchesLog(log, EmptyFilter, zoneOffsetMinutes));
  }

  /** A log is shown exactly when it is stored and passes the filter. */
  lemma FilterLogsContents(logs: seq<Auth.Log>, filter: LogFilter, zoneOffsetMinutes: int, log: Auth.Log)
    ensures log in FilterLogs(logs, filter, zoneOffsetMinutes) <==> log in logs && MatchesLog(log, filter, zoneOffsetMinutes)
  {
    Seqs.KeepContents(logs, l => MatchesLog(l, filter, zoneOffsetMinutes));
  }

  /**
   * The bounds are inclusive and the same day used as both bounds (in UTC)
   * covers its first millisecond and 23:59:59.000, but not the last 999
   * milliseconds of the day.
   */
  lemma SameDayBounds(day: int)
    ensures var f := LogFilter("", "", Day(day), Day(day));
      MatchesDate(day * MillisPerDay, f, 0)
      && MatchesDate(day * MillisPerDay + EndOfDayOffset, f, 0)
      && !MatchesDate(day * MillisPerDay + EndOfDayOffset + 1, f, 0)
      && !MatchesDate(day * MillisPerDay - 1, f, 0)
  {
  }

  /** A bound that is not a date hides every log. */
  lemma InvalidBoundHidesAll(timestamp: int, filter: LogFilter, zoneOffsetMinutes: int)
    requires filter.dateFrom.InvalidDate? || filter.dateTo.InvalidDate?
    ensures !MatchesDate(timestamp, filter, zoneOffsetMinutes)
  {
  }

  /** `Kullanıcı: <name>`, the details of the panel's log entries. */
  function UserDetails(name: string): string {
    "Kullanıcı: " + name
  }

  const UpdateFailed: string := "Kullanıcı güncellenirken hata oluştu!"
  const UpdateSucceeded: string := "Kullanıcı başarıyla güncellendi!"

  /** The patch `handleSaveEdit` hands to `updateUser`: the password and the permissions, nothing else. */
  function EditPatch(form: EditForm): Auth.UserPatch {
    Auth.UserPatch(None, Some(form.password), None, None, Some(form.permissions), None, None)
  }

  /**
   * What `logActivity` leaves in the log for one of the panel's entries about
   * user `name`: nothing changes without a session.
   */
  function SettingsLog(logs: seq<Auth.Log>, session: Option<Auth.User>, action: string, name: string,
                       id: string, timestamp: int): seq<Auth.Log> {
    if session.None? then logs
    else Auth.PrependLog(logs, Auth.Log(id, session.value.username, action, Some(SettingsPage), timestamp, Some(UserDetails(name))))
  }

  /** The panel's state; `store` is the panel's own `useAuth()` instance. */
  class PermissionsPanel {
    const store: Auth.AuthStore
    /** The copy of the user table the panel lists (`loadUsers`). */
    var users: seq<Auth.User>
    var activityLogs: seq<Auth.Log>
    var newUser: NewUserForm
    var editForm: EditForm
    var editingUser: Option<string>
    var showAddForm: bool
    var message: Option<Message>
    var filter: LogFilter

    /** Opening the panel loads the users and the log from the store. */
    constructor Open(store: Auth.AuthStore)
      ensures this.store == store
      ensures users == store.users && activityLogs == store.logs
      ensures newUser == BlankNewUser() && editForm == EditForm("", "", [])
      ensures editingUser.None? && !showAddForm && message.None? && filter == EmptyFilter
    {
      this.store := store;
      users := store.users;
      activityLogs := store.logs;
      newUser := BlankNewUser();
      editForm := EditForm("", "", []);
      editingUser := None;
      showAddForm := false;
      message := None;
      filter := EmptyFilter;
    }

    /** The logs on screen. */
    function ShownLogs(zoneOffsetMinutes: int): seq<Auth.Log>
      reads this
    {
      FilterLogs(activityLogs, filter, zoneOffsetMinutes)
    }

    /** The add-user button: shows the add form. */
    method OpenAddForm()
      modifies this
      ensures showAddForm
      ensures newUser == old(newUser) && users == old(users) && editForm == old(editForm) && editingUser == old(editingUser)
      ensures activityLogs == old(activityLogs) && message == old(message) && filter == old(filter)
    {
      showAddForm := true;
    }

    /** Typing in the add form. */
    method EditNewUser(form: NewUserForm)
      modifies this
      ensures newUser == form
      ensures users == old(users) && editForm == old(editForm) && editingUser == old(editingUser)
      ensures activityLogs == old(activityLogs) && showAddForm == old(showAddForm)
      ensures message == old(message) && filter == old(filter)
    {
      newUser := form;
    }

    /** The add form's cancel button: hides the form and blanks it. */
    method CancelAddUser()
      modifies this
      ensures !showAddForm && newUser == BlankNewUser()
      ensures users == old(users) && editForm == old(editForm) && editingUser == old(editingUser)
      ensures activityLogs == old(activityLogs) && message == old(message) && filter == old(filter)
    {
      showAddForm := false;
      newUser := BlankNewUser();
    }

    /** Typing in the edit dialog's password input: only the password changes. */
    method SetEditPassword(password: string)
      modifies this
      ensures editForm == old(editForm).(password := password)
      ensures users == old(users) && newUser == old(newUser) && editingUser == old(editingUser)
      ensures activityLogs == old(activityLogs) && showAddForm == old(showAddForm)
      ensures message == old(message) && filter == old(filter)
    {
      editForm := editForm.(password := password);
    }

    /** The edit dialog's cancel button: closes the dialog and keeps the form as it is. */
    method CancelEditUser()
      modifies this
      ensures editingUser.None?
      ensures users == old(users) && newUser == old(newUser) && editForm == old(editForm)
      ensures activityLogs == old(activityLogs) && showAddForm == old(showAddForm)
      ensures message == old(message) && filter == old(filter)
    {
      editingUser := None;
    }

    /**
     * `handleAddUser`: stops at the first failed check with its message and
     * touches nothing else; otherwise asks the store to add the record, and on
     * success resets the form, reloads the users and logs the addition.
     */
    method HandleAddUser(createdAt: string, logId: string, timestamp: int)
      modifies this, store
      ensures var err := ValidateNewUser(old(newUser));
        err.Some? ==>
          message == Some(Message(true, ErrorText(err.value)))
          && store.users == old(store.users) && store.logs == old(store.logs)
          && users == old(users) && newUser == old(newUser) && showAddForm == old(showAddForm)
      ensures ValidateNewUser(old(newUser)).None? ==>
        SubmittedNewUser(old(store.users), old(store.logs), old(store.session), old(users), old(showAddForm),
                         old(newUser), createdAt, logId, timestamp)
      ensures store.session == old(store.session)
      ensures editForm == old(editForm) && editingUser == old(editingUser)
      ensures activityLogs == old(activityLogs) && filter == old(filter)
    {
      var err := ValidateNewUser(newUser);
      if err.Some? {
        message := Some(Message(true, ErrorText(err.value)));
      } else {
        SubmitNewUser(createdAt, logId, timestamp);
      }
    }

    /**
     * The state after a validated form is handed to `addUser`: a taken name
     * leaves the store as it was with an error; otherwise the user is appended,
     * the form reset, the list reloaded and the addition logged.
     */
    ghost predicate SubmittedNewUser(users0: seq<Auth.User>, logs0: seq<Auth.Log>, session: Option<Auth.User>,
                                     listed: seq<Auth.User>, shown: bool,
                                     form: NewUserForm, createdAt: string, logId: string, timestamp: int)
      reads this, store
    {
      var added := Auth.AddedUsers(users0, NewUserRecord(form), createdAt);
      (added.None? ==>
         message == Some(Message(true, "Bu kullanıcı adı zaten mevcut!"))
         && store.users == users0 && store.logs == logs0 && newUser == form
         && users == listed && showAddForm == shown)
      && (added.Some? ==>
         store.users == added.value && users == store.users
         && message == Some(Message(false, "Kullanıcı başarıyla eklendi!"))
         && newUser == BlankNewUser() && !showAddForm
         && store.logs == SettingsLog(logs0, session, AddedAction, form.username, logId, timestamp))
    }

    method SubmitNewUser(createdAt: string, logId: string, timestamp: int)
      modifies this, store
      ensures SubmittedNewUser(old(store.users), old(store.logs), old(store.session), old(users), old(showAddForm),
                               old(newUser), createdAt, logId, timestamp)
      ensures store.session == old(store.session)
      ensures editForm == old(editForm) && editingUser == old(editingUser)
      ensures activityLogs == old(activityLogs) && filter == old(filter)
    {
      var form := newUser;
      var ok := store.AddUser(NewUserRecord(form), createdAt);
      if ok {
        message := Some(Message(false, "Kullanıcı başarıyla eklendi!"));
        newUser := BlankNewUser();
        showAddForm := false;
        store.LogActivity(AddedAction, Some(SettingsPage), Some(UserDetails(form.username)), logId, timestamp);
        users := store.users;
      } else {
        message := Some(Message(true, "Bu kullanıcı adı zaten mevcut!"));
      }
    }

    /** `handleEditUser(name)`: loads the listed user into the edit form; an unknown name changes nothing. */
    method HandleEditUser(name: string)
      modifies this
      ensures var k := Auth.FindUser(users, name);
        k.None? ==> editForm == old(editForm) && editingUser == old(editingUser)
      ensures var k := Auth.FindUser(users, name);
        k.Some? ==>
          editingUser == Some(name)
          && editForm == EditForm(users[k.value].username, users[k.value].password, users[k.value].permissions.GetOr([]))
      ensures users == old(users) && newUser == old(newUser) && message == old(message)
      ensures activityLogs == old(activityLogs) && showAddForm == old(showAddForm) && filter == old(filter)
    {
      var k := Auth.FindUser(users, name);
      if k.Some? {
        var u := users[k.value];
        editForm := EditForm(u.username, u.password, u.permissions.GetOr([]));
        editingUser := Some(name);
      }
    }

    /**
     * `handleSaveEdit`: a blank password or an empty permission list is
     * refused; otherwise only the password and the permissions are passed to
     * `updateUser`, which fails when no user is being edited or the user is
     * gone.
     */
    method HandleSaveEdit(logId: string, timestamp: int)
      modifies this, store
      ensures Text.AllSpace(old(editForm).password) ==>
        message == Some(Message(true, "Şifre boş olamaz!")) && store.users == old(store.users) && store.logs == old(store.logs)
        && users == old(users) && editingUser == old(editingUser)
      ensures !Text.AllSpace(old(editForm).password) && old(editForm).permissions == [] ==>
        message == Some(Message(true, "En az bir sayfa izni seçmelisiniz!"))
        && store.users == old(store.users) && store.logs == old(store.logs)
        && users == old(users) && editingUser == old(editingUser)
      ensures !Text.AllSpace(old(editForm).password) && old(editForm).permissions != [] && old(editingUser).None? ==>
        message == Some(Message(true, UpdateFailed)) && store.users == old(store.users) && store.logs == old(store.logs)
        && users == old(users) && editingUser == old(editingUser)
      ensures !Text.AllSpace(old(editForm).password) && old(editForm).permissions != [] && old(editingUser).Some? ==>
        SubmittedEdit(old(store.users), old(store.logs), old(store.session), old(users),
                      old(editingUser).value, old(editForm), logId, timestamp)
      ensures store.session == old(store.session)
      ensures newUser == old(newUser) && editForm == old(editForm)
      ensures activityLogs == old(activityLogs) && showAddForm == old(showAddForm) && filter == old(filter)
    {
      if Text.AllSpace(editForm.password) {
        message := Some(Message(true, "Şifre boş olamaz!"));
        return;
      }
      if |editForm.permissions| == 0 {
        message := Some(Message(true, "En az bir sayfa izni seçmelisiniz!"));
        return;
      }
      if editingUser.None? {
        message := Some(Message(true, UpdateFailed));
        return;
      }
      SubmitEdit(editingUser.value, logId, timestamp);
    }

    /**
     * The state after `updateUser` is asked to set a user's password and
     * permissions: a missing user leaves the store as it was with an error;
     * otherwise the user is updated, editing ends, the list is reloaded and the
     * update logged.
     */
    ghost predicate SubmittedEdit(users0: seq<Auth.User>, logs0: seq<Auth.Log>, session: Option<Auth.User>,
                                  listed: seq<Auth.User>, name: string, form: EditForm, logId: string, timestamp: int)
      reads this, store
    {
      var updated := Auth.UpdatedUsers(users0, name, EditPatch(form));
      (updated.None? ==>
         message == Some(Message(true, UpdateFailed)) && store.users == users0 && store.logs == logs0
         && users == listed && editingUser == Some(name))
      && (updated.Some? ==>
         store.users == updated.value && users == store.users
         && message == Some(Message(false, UpdateSucceeded)) && editingUser.None?
         && store.logs == SettingsLog(logs0, session, UpdatedAction, name, logId, timestamp))
    }

    method SubmitEdit(name: string, logId: string, timestamp: int)
      requires editingUser == Some(name)
      modifies this, store
      ensures SubmittedEdit(old(store.users), old(store.logs), old(store.session), old(users), name, old(editForm), logId, timestamp)
      ensures store.session == old(store.session)
      ensures newUser == old(newUser) && editForm == old(editForm)
      ensures activityLogs == old(activityLogs) && showAddForm == old(showAddForm) && filter == old(filter)
    {
      var ok := store.UpdateUser(name, EditPatch(editForm));
      if ok {
        EditSaved(name, logId, timestamp);
      } else {
        message := Some(Message(true, UpdateFailed));
      }
    }

    /** The success branch of `handleSaveEdit`: report, end editing, log and reload. */
    method EditSaved(name: string, logId: string, timestamp: int)
      modifies this, store
      ensures message == Some(Message(false, UpdateSucceeded)) && editingUser.None?
      ensures store.logs == SettingsLog(old(store.logs), old(store.session), UpdatedAction, name, logId, timestamp)
      ensures store.users == old(store.users) && store.session == old(store.session) && users == store.users
      ensures newUser == old(newUser) && editForm == old(editForm)
      ensures activityLogs == old(activityLogs) && showAddForm == old(showAddForm) && filter == old(filter)
    {
      message := Some(Message(false, UpdateSucceeded));
      editingUser := None;
      store.LogActivity(UpdatedAction, Some(SettingsPage), Some(UserDetails(name)), logId, timestamp);
      users := store.users;
    }

    /**
     * `handleDeleteUser(name)`: when confirmed, deletes, reloads and logs;
     * `deleteUser` always reports success, so its error branch is never taken.
     */
    method HandleDeleteUser(name: string, confirmed: bool, logId: string, timestamp: int)
      modifies this, store
      ensures !confirmed ==>
        store.users == old(store.users) && store.logs == old(store.logs) && message == old(message) && users == old(users)
      ensures confirmed ==>
        store.users == Auth.RemainingUsers(old(store.users), name) && users == store.users
        && message == Some(Message(false, "Kullanıcı başarıyla silindi!"))
        && store.logs == SettingsLog(old(store.logs), old(store.session), DeletedAction, name, logId, timestamp)
      ensures store.session == old(store.session)
      ensures newUser == old(newUser) && editForm == old(editForm) && editingUser == old(editingUser)
      ensures activityLogs == old(activityLogs) && showAddForm == old(showAddForm) && filter == old(filter)
    {
      if confirmed {
        var ok := store.DeleteUser(name);
        message := Some(Message(false, "Kullanıcı başarıyla silindi!"));
        store.LogActivity(DeletedAction, Some(SettingsPage), Some(UserDetails(name)), logId, timestamp);
        users := store.users;
      }
    }

    /** `handlePermissionToggle(pageId, isNewUser)`. */
    method HandlePermissionToggle(pageId: string, isNewUser: bool)
      modifies this
      ensures isNewUser ==>
        newUser == old(newUser).(permissions := TogglePermission(old(newUser).permissions, pageId))
        && editForm == old(editForm)
      ensures !isNewUser ==>
        editForm == old(editForm).(permissions := TogglePermission(old(editForm).permissions, pageId))
        && newUser == old(newUser)
      ensures users == old(users) && editingUser == old(editingUser)
      ensures activityLogs == old(activityLogs) && showAddForm == old(showAddForm)
      ensures message == old(message) && filter == old(filter)
    {
      if isNewUser {
        newUser := newUser.(permissions := TogglePermission(newUser.permissions, pageId));
      } else {
        editForm := editForm.(permissions := TogglePermission(editForm.permissions, pageId));
      }
    }

    /** Changing the log filter. */
    method SetFilter(f: LogFilter)
      modifies this
      ensures filter == f && activityLogs == old(activityLogs) && users == old(users)
      ensures newUser == old(newUser) && editForm == old(editForm) && editingUser == old(editingUser)
      ensures showAddForm == old(showAddForm) && message == old(message)
    {
      filter := f;
    }
  }
}
