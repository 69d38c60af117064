/**
 * The local user/permission store and activity log of `src/hooks/useAuth.ts`.
 *
 * The hook keeps three things in local storage: the user table
 * (`system_users`), the logged-in user (`hoze_user`, mirrored by the
 * `user`/`isLoggedIn` state) and the activity log (`activity_logs`,
 * newest first, at most 1000 entries). `AuthStore` holds the decoded
 * value of each key in a field; every method writes back the whole value
 * it changes, as the hook does.
 */
module Auth {
  import opened Wrappers
  import Seqs

  /** A stored user record; `permissions`, `createdAt` and `lastLogin` are optional in the source. */
  datatype User = User(
    username: string,
    password: string,
    isAdmin: bool,
    hasFullAccess: bool,
    permissions: Option<seq<string>>,
    createdAt: Option<string>,
    lastLogin: Option<string>)

  /** `Omit<User, 'createdAt'>`: what `addUser` is handed. */
  datatype NewUser = NewUser(
    username: string,
    password: string,
    isAdmin: bool,
    hasFullAccess: bool,
    permissions: Option<seq<string>>,
    lastLogin: Option<string>)

  /** `Partial<User>`: every field that is present overwrites the stored one. */
  datatype UserPatch = UserPatch(
    username: Option<string>,
    password: Option<string>,
    isAdmin: Option<bool>,
    hasFullAccess: Option<bool>,
    permissions: Option<seq<string>>,
    createdAt: Option<string>,
    lastLogin: Option<string>)

  /** An activity-log entry; `timestamp` is the instant (in milliseconds) its ISO string denotes. */
  datatype Log = Log(
    id: string,
    username: string,
    action: string,
    page: Option<string>,
    timestamp: int,
    details: Option<string>)

  datatype Page = Page(id: string, title: string)  // `{ id, label }`

  const AdminUsername: string := "admin"
  const AdminPassword: string := "hoze2025"
  const MaxLogs: nat := 1000
  const LogoutAction: string := "Çıkış Yaptı"

  /** `ALL_PAGES`. */
  const AllPages: seq<Page> := [
    Page("home", "Ana Sayfa"),
    Page("finans", "Finans"),
    Page("calendar", "Takvim"),
    Page("settings", "Ayarlar")
  ]

  /** `pages.map(page => page.id)`. */
  function PageIds(pages: seq<Page>): (ids: seq<string>)
    ensures |ids| == |pages|
    ensures forall i :: 0 <= i < |pages| ==> ids[i] == pages[i].id
  {
    seq(|pages|, i requires 0 <= i < |pages| => pages[i].id)
  }

  /** No two records of the table share a username. */
  ghost predicate UniqueUsernames(users: seq<User>) {
    forall i, j :: 0 <= i < j < |users| ==> users[i].username != users[j].username
  }


  /** `users.findIndex(u => u.username === name)`. */
  function FindUser(users: seq<User>, name: string): (r: Option<nat>)
    ensures r.None? <==> forall i :: 0 <= i < |users| ==> users[i].username != name
    ensures r.Some? ==> r.value < |users| && users[r.value].username == name
    ensures r.Some? ==> forall j :: 0 <= j < r.value ==> users[j].username != name
  {
    Seqs.FindFirst(users, (u: User) => u.username == name)
  }

  /** `{...userData, createdAt}`. */
  function Stamp(rec: NewUser, createdAt: string): (u: User)
    ensures u.username == rec.username && u.password == rec.password
    ensures u.isAdmin == rec.isAdmin && u.hasFullAccess == rec.hasFullAccess
    ensures u.permissions == rec.permissions && u.lastLogin == rec.lastLogin
    ensures u.createdAt == Some(createdAt)
  {
    User(rec.username, rec.password, rec.isAdmin, rec.hasFullAccess, rec.permissions, Some(createdAt), rec.lastLogin)
  }

  /**
   * The table after `addUser(rec)`: None (the call returns false and stores
   * nothing) when the username is taken, otherwise the table with the stamped
   * record appended.
   */
  function AddedUsers(users: seq<User>, rec: NewUser, createdAt: string): (r: Option<seq<User>>)
    ensures r.None? <==> exists i :: 0 <= i < |users| && users[i].username == rec.username
    ensures r.Some? ==> |r.value| == |users| + 1 && r.value[..|users|] == users
    ensures r.Some? ==> r.value[|users|] == Stamp(rec, createdAt)
    ensures r.Some? && UniqueUsernames(users) ==> UniqueUsernames(r.value)
  {
    if FindUser(users, rec.username).Some? then None
    else
      var next := users + [Stamp(rec, createdAt)];
      assert next[..|users|] == users;
      Some(next)
  }

  /** `{...u, ...patch}`: a shallow merge. */
  function Merge(u: User, patch: UserPatch): (m: User)
    ensures m.username == patch.username.GetOr(u.username)
    ensures m.password == patch.password.GetOr(u.password)
    ensures m.isAdmin == patch.isAdmin.GetOr(u.isAdmin)
    ensures m.hasFullAccess == patch.hasFullAccess.GetOr(u.hasFullAccess)
    ensures patch.permissions.Some? ==> m.permissions == patch.permissions
    ensures patch.permissions.None? ==> m.permissions == u.permissions
    ensures patch.createdAt.Some? ==> m.createdAt == patch.createdAt
    ensures patch.createdAt.None? ==> m.createdAt == u.createdAt
    ensures patch.lastLogin.Some? ==> m.lastLogin == patch.lastLogin
    ensures patch.lastLogin.None? ==> m.lastLogin == u.lastLogin
  {
    User(
      patch.username.GetOr(u.username),
      patch.password.GetOr(u.password),
      patch.isAdmin.GetOr(u.isAdmin),
      patch.hasFullAccess.GetOr(u.hasFullAccess),
      if patch.permissions.Some? then patch.permissions else u.permissions,
      if patch.createdAt.Some? then patch.createdAt else u.createdAt,
      if patch.lastLogin.Some? then patch.lastLogin else u.lastLogin)
  }

  /**
   * The table after `updateUser(name, patch)`: None (false, nothing stored)
   * for an unknown username; otherwise only the first record with that
   * username is merged with the patch.
   */
  function UpdatedUsers(users: seq<User>, name: string, patch: UserPatch): (r: Option<seq<User>>)
    ensures r.None? <==> forall i :: 0 <= i < |users| ==> users[i].username != name
    ensures r.Some? ==> |r.value| == |users|
    ensures r.Some? ==>
      (exists k :: 0 <= k < |users| && users[k].username == name
        && (forall j :: 0 <= j < k ==> users[j].username != name)
        && r.value[k] == Merge(users[k], patch)
        && (forall j :: 0 <= j < |users| && j != k ==> r.value[j] == users[j]))
  {
    match FindUser(users, name)
    case None => None
    case Some(k) => Some(users[k := Merge(users[k], patch)])
  }

  /** A patch that leaves the username alone keeps the table's usernames unique. */
  lemma UpdateKeepsUnique(users: seq<User>, name: string, patch: UserPatch)
    requires UniqueUsernames(users)
    requires patch.username.None? || patch.username == Some(name)
    requires UpdatedUsers(users, name, patch).Some?
    ensures UniqueUsernames(UpdatedUsers(users, name, patch).value)
  {
    var k := FindUser(users, name).value;
    var r := UpdatedUsers(users, name, patch).value;
    assert r == users[k := Merge(users[k], patch)];
    forall i, j | 0 <= i < j < |r|
      ensures r[i].username != r[j].username
    {
      assert r[i].username == users[i].username;
      assert r[j].username == users[j].username;
    }
  }

  /** `users.filter(u => u.username !== name)`: what `deleteUser` stores. */
  function RemainingUsers(users: seq<User>, name: string): (r: seq<User>)
    ensures forall i :: 0 <= i < |r| ==> r[i].username != name
    ensures forall u :: u in users && u.username != name <==> u in r
    ensures |r| <= |users|
  {
    Seqs.KeepContents(users, (u: User) => u.username != name);
    Seqs.Keep(users, (u: User) => u.username != name)
  }

  /** Deleting keeps the table's usernames unique. */
  lemma RemoveKeepsUnique(users: seq<User>, name: string)
    requires UniqueUsernames(users)
    ensures UniqueUsernames(RemainingUsers(users, name))
  {
    Seqs.KeepDistinct(users, (u: User) => u.username != name, (u: User) => u.username);
  }

  /** Deleting keeps the relative order of the remaining records: it distributes over concatenation. */
  lemma RemoveKeepsOrder(front: seq<User>, back: seq<User>, name: string)
    ensures RemainingUsers(front + back, name) == RemainingUsers(front, name) + RemainingUsers(back, name)
  {
    Seqs.KeepAppend(front, back, (u: User) => u.username != name);
  }

  /** `logs.unshift(entry); logs.slice(0, 1000)`. */
  function PrependLog(logs: seq<Log>, entry: Log): (r: seq<Log>)
    ensures |r| == if |logs| + 1 < MaxLogs then |logs| + 1 else MaxLogs
    ensures r[0] == entry
    ensures r[1..] == logs[..|r| - 1]
  {
    var all := [entry] + logs;
    var n := if |all| < MaxLogs then |all| else MaxLogs;
    assert all[..n][1..] == logs[..n - 1];
    all[..n]
  }

  /** The log after recording `entries` one after the other, starting from `logs`. */
  function RecordAll(logs: seq<Log>, entries: seq<Log>): seq<Log>
    decreases |entries|
  {
    if entries == [] then logs
    else PrependLog(RecordAll(logs, entries[..|entries| - 1]), entries[|entries| - 1])
  }

  /**
   * Recording any number of entries on an empty log keeps at most 1000 of
   * them, the most recent first: 1001 calls leave exactly 1000 entries.
   */
  lemma {:induction false} RecordAllBounded(entries: seq<Log>)
    ensures |RecordAll([], entries)| == if |entries| < MaxLogs then |entries| else MaxLogs
    ensures entries != [] ==> RecordAll([], entries)[0] == entries[|entries| - 1]
    decreases |entries|
  {
    if entries != [] {
      RecordAllBounded(entries[..|entries| - 1]);
    }
  }

  /** When the log is full, recording one more entry evicts exactly the oldest one. */
  lemma FullLogEvictsOldest(logs: seq<Log>, entry: Log)
    requires |logs| == MaxLogs
    ensures PrependLog(logs, entry) == [entry] + logs[..MaxLogs - 1]
  {
    var r := PrependLog(logs, entry);
    assert r == [r[0]] + r[1..];
  }

  /** `hasPageAccess(pageId)` for the current session. */
  predicate HasPageAccess(session: Option<User>, pageId: string) {
    match session
    case None => false
    case Some(u) => u.isAdmin || (u.permissions.Some? && pageId in u.permissions.value)
  }

  /** Page access is denied without a session, granted everywhere to an admin, and otherwise exactly the permission list. */
  lemma PageAccessCases(session: Option<User>, pageId: string)
    ensures session.None? ==> !HasPageAccess(session, pageId)
    ensures session.Some? && session.value.isAdmin ==> HasPageAccess(session, pageId)
    ensures session.Some? && !session.value.isAdmin ==>
      (HasPageAccess(session, pageId) <==> session.value.permissions.Some? && pageId in session.value.permissions.value)
  {
  }

  /** The session the hard-coded super-user gets; note the stored name is `Admin`. */
  function AdminSession(now: string): (u: User)
    ensures u.isAdmin && u.hasFullAccess
    ensures u.permissions == Some(PageIds(AllPages))
    ensures u.lastLogin == Some(now)
  {
    User("Admin", AdminPassword, true, true, Some(PageIds(AllPages)), None, Some(now))
  }

  /** Every page of `ALL_PAGES` is accessible after the super-user logs in, and its permission list names all of them. */
  lemma AdminSeesEveryPage(now: string)
    ensures forall p :: p in AllPages ==> HasPageAccess(Some(AdminSession(now)), p.id)
    ensures forall p :: p in AllPages ==> p.id in AdminSession(now).permissions.value
  {
    var ids := PageIds(AllPages);
    forall p | p in AllPages ensures p.id in ids {
      var i :| 0 <= i < |AllPages| && AllPages[i] == p;
      assert ids[i] == p.id;
    }
  }

  /** `{lastLogin: now}`. */
  function LastLoginPatch(now: string): UserPatch {
    UserPatch(None, None, None, None, None, None, Some(now))
  }

  datatype LoginOutcome = LoginOutcome(ok: bool, session: Option<User>, users: seq<User>)

  /** `users.find(u => u.username === name && u.password === password)`. */
  function FindCredential(users: seq<User>, name: string, password: string): (r: Option<nat>)
    ensures r.None? <==> forall i :: 0 <= i < |users| ==> !(users[i].username == name && users[i].password == password)
    ensures r.Some? ==> r.value < |users| && users[r.value].username == name && users[r.value].password == password
    ensures r.Some? ==> forall j :: 0 <= j < r.value ==> !(users[j].username == name && users[j].password == password)
  {
    Seqs.FindFirst(users, (u: User) => u.username == name && u.password == password)
  }

  /**
   * What `login(name, password)` returns, and the session and table it leaves:
   * the super-user credentials win without reading the table; otherwise an
   * exact username and password match logs that record in with its
   * `lastLogin` refreshed; otherwise nothing changes.
   */
  function LoginResult(users: seq<User>, session: Option<User>, name: string, password: string, now: string): (r: LoginOutcome)
    ensures name == AdminUsername && password == AdminPassword ==>
      r == LoginOutcome(true, Some(AdminSession(now)), users)
    ensures !(name == AdminUsername && password == AdminPassword) ==>
      (r.ok <==> exists i :: 0 <= i < |users| && users[i].username == name && users[i].password == password)
    ensures !r.ok ==> r.session == session && r.users == users
    ensures r.ok && !(name == AdminUsername && password == AdminPassword) ==>
      FindCredential(users, name, password).Some? && FindUser(users, name).Some?
      && r.session == Some(users[FindCredential(users, name, password).value].(lastLogin := Some(now)))
      && r.users == users[FindUser(users, name).value := users[FindUser(users, name).value].(lastLogin := Some(now))]
  {
    if name == AdminUsername && password == AdminPassword then
      LoginOutcome(true, Some(AdminSession(now)), users)
    else
      match FindCredential(users, name, password)
      case None => LoginOutcome(false, session, users)
      case Some(i) =>
        var u := users[i];
        var k := FindUser(users, name).value;
        assert Merge(users[k], LastLoginPatch(now)) == users[k].(lastLogin := Some(now));
        var updated := UpdatedUsers(users, name, LastLoginPatch(now));
        LoginOutcome(true, Some(u.(lastLogin := Some(now))), updated.value)
  }

  /**
   * With unique usernames, the record `find` matches is the one `updateUser`
   * refreshes, so after a login the session equals its row in the table and
   * the usernames stay unique.
   */
  lemma LoginSessionMatchesTable(users: seq<User>, session: Option<User>, name: string, password: string, now: string)
    requires UniqueUsernames(users)
    requires !(name == AdminUsername && password == AdminPassword)
    requires LoginResult(users, session, name, password, now).ok
    ensures var r := LoginResult(users, session, name, password, now);
      r.session.Some? && r.session.value in r.users && UniqueUsernames(r.users)
  {
    var r := LoginResult(users, session, name, password, now);
    var i := FindCredential(users, name, password).value;
    var k := FindUser(users, name).value;
    assert i == k;
    assert r.users[k] == r.session.value;
    assert forall j :: 0 <= j < |users| ==> r.users[j].username == users[j].username;
  }

  /** The store behind one `useAuth()` instance and the local-storage keys it reads and writes. */
  class AuthStore {
    /** `system_users`. */
    var users: seq<User>
    /** `user` / `hoze_user`; `isLoggedIn` is `session.Some?`. */
    var session: Option<User>
    /** `activity_logs`, newest first. */
    var logs: seq<Log>

    /**
     * The mount effect: a saved session that parses is restored (one that does
     * not is removed); an absent user table is initialised to the empty default.
     */
    constructor Open(savedSession: Option<Option<User>>, savedUsers: Option<Option<seq<User>>>, savedLogs: Option<Option<seq<Log>>>)
      ensures session == if savedSession.Some? && savedSession.value.Some? then Some(savedSession.value.value) else None
      ensures users == Seqs.LoadList(savedUsers)
      ensures logs == Seqs.LoadList(savedLogs)
    {
      session := if savedSession.Some? && savedSession.value.Some? then Some(savedSession.value.value) else None;
      users := Seqs.LoadList(savedUsers);
      logs := Seqs.LoadList(savedLogs);
    }

    /** `isAdmin: user?.isAdmin || false`. */
    predicate IsAdmin()
      reads this
    {
      session.Some? && session.value.isAdmin
    }

    /** `addUser(rec)`. */
    method AddUser(rec: NewUser, createdAt: string) returns (ok: bool)
      modifies this
      ensures ok <==> forall i :: 0 <= i < |old(users)| ==> old(users)[i].username != rec.username
      ensures users == AddedUsers(old(users), rec, createdAt).GetOr(old(users))
      ensures ok ==> users == old(users) + [Stamp(rec, createdAt)]
      ensures !ok ==> users == old(users)
      ensures UniqueUsernames(old(users)) ==> UniqueUsernames(users)
      ensures session == old(session) && logs == old(logs)
    {
      var existing := FindUser(users, rec.username);
      if existing.Some? {
        return false;
      }
      users := users + [Stamp(rec, createdAt)];
      ok := true;
    }

    /** `updateUser(name, patch)`. */
    method UpdateUser(name: string, patch: UserPatch) returns (ok: bool)
      modifies this
      ensures ok <==> exists i :: 0 <= i < |old(users)| && old(users)[i].username == name
      ensures users == UpdatedUsers(old(users), name, patch).GetOr(old(users))
      ensures session == old(session) && logs == old(logs)
    {
      var index := FindUser(users, name);
      if index.None? {
        return false;
      }
      var k := index.value;
      users := users[k := Merge(users[k], patch)];
      ok := true;
    }

    /** `deleteUser(name)`: reports success whether or not the name was present. */
    method DeleteUser(name: string) returns (ok: bool)
      modifies this
      ensures ok
      ensures users == RemainingUsers(old(users), name)
      ensures UniqueUsernames(old(users)) ==> UniqueUsernames(users)
      ensures session == old(session) && logs == old(logs)
    {
      if UniqueUsernames(users) {
        RemoveKeepsUnique(users, name);
      }
      users := RemainingUsers(users, name);
      ok := true;
    }

    /** `logActivity(action, page, details)`; the id and the timestamp are the clock readings. */
    method LogActivity(action: string, page: Option<string>, details: Option<string>, id: string, timestamp: int)
      modifies this
      ensures session.None? ==> logs == old(logs)
      ensures session.Some? ==> logs == PrependLog(old(logs), Log(id, session.value.username, action, page, timestamp, details))
      ensures session == old(session) && users == old(users)
    {
      if session.None? {
        return;
      }
      logs := PrependLog(logs, Log(id, session.value.username, action, page, timestamp, details));
    }

    /** `login(name, password)`; `now` is the ISO time stamped into `lastLogin`. */
    method Login(name: string, password: string, now: string) returns (ok: bool)
      modifies this
      ensures LoginOutcome(ok, session, users) == LoginResult(old(users), old(session), name, password, now)
      ensures logs == old(logs)
    {
      if name == AdminUsername && password == AdminPassword {
        session := Some(AdminSession(now));
        return true;
      }
      var found := FindCredential(users, name, password);
      if found.None? {
        return false;
      }
      var u := users[found.value];
      ghost var before := users;
      var updated := UpdateUser(name, LastLoginPatch(now));
      assert users == UpdatedUsers(before, name, LastLoginPatch(now)).value;
      session := Some(u.(lastLogin := Some(now)));
      ok := true;
    }

    /** `logout()`: records the logout when someone is logged in, then clears the session. */
    method Logout(id: string, timestamp: int)
      modifies this
      ensures session.None?
      ensures old(session).None? ==> logs == old(logs)
      ensures old(session).Some? ==> logs == PrependLog(old(logs), Log(id, old(session).value.username, LogoutAction, None, timestamp, None))
      ensures users == old(users)
    {
      if session.Some? {
        LogActivity(LogoutAction, None, None, id, timestamp);
      }
      session := None;
    }
  }
}
