/**
 * The authentication hook: the user store it seeds and repairs, credential
 * lookup for sign-in and password reset, first-administrator registration and
 * the hook's own permission test.
 */
module Auth {
  import opened Common
  import opened Domain
  import Text
  import Access

  /** The signed-in user as the hook keeps it: the account without its password. */
  datatype SessionUser = SessionUser(
    id: string,
    username: string,
    email: string,
    role: Role,
    fullName: string,
    isActive: bool,
    forcePasswordChange: bool,
    customPermissions: Option<seq<string>>)

  datatype AuthError = InvalidCredentials | AccountDisabled | AdminExists | UserNotFound | StoreUnreadable

  datatype Outcome<T> = Ok(value: T) | Err(error: AuthError)

  /** `const { password: _, ...rest } = u`. */
  function WithoutPassword(u: User): (s: SessionUser)
    ensures s.id == u.id && s.username == u.username && s.email == u.email && s.role == u.role
    ensures s.fullName == u.fullName && s.isActive == u.isActive && s.forcePasswordChange == u.forcePasswordChange
    ensures s.customPermissions == u.customPermissions
  {
    SessionUser(u.id, u.username, u.email, u.role, u.fullName, u.isActive, u.forcePasswordChange, u.customPermissions)
  }

  /** The special administrator account as the hook creates it. */
  const SpecialUser: User :=
    User("4", "Vinildo Mondlane", "Vinildo Mondlane", "V.mondlane1@gmail.com", Admin, "Vinildo123456", true, false, None)

  /** `getDefaultUsers`. */
  const DefaultUsers: seq<User> := [
    User("1", "admin", "Admin User", "admin@example.com", Admin, "admin123", true, false, None),
    User("2", "user", "Regular User", "user@example.com", RegularUser, "user123", true, false, None),
    User("3", "Benigna Magaia", "Benigna Magaia", "benigna@example.com", RegularUser, "01", true, false, None),
    SpecialUser]

  /** Position of the first user satisfying `f` (`findIndex`/`find`). */
  function FirstWhere(users: seq<User>, f: User -> bool): (r: Option<nat>)
    ensures r.Some? ==> r.value < |users| && f(users[r.value])
    ensures r.Some? ==> forall j :: 0 <= j < r.value ==> !f(users[j])
    ensures r.None? ==> forall j :: 0 <= j < |users| ==> !f(users[j])
  {
    if users == [] then None
    else if f(users[0]) then Some(0)
    else
      match FirstWhere(users[1..], f)
      case Some(k) => Some(k + 1)
      case None => None
  }

  /** The typed name is the user's name or, when the user has one, e-mail,
      ignoring case. */
  predicate Identifies(u: User, input: string)
  {
    Text.Lower(u.username) == Text.Lower(input) || (u.email != "" && Text.Lower(u.email) == Text.Lower(input))
  }

  function LoginIndex(users: seq<User>, input: string, password: string): Option<nat>
  {
    FirstWhere(users, (u: User) => Identifies(u, input) && u.password == password)
  }

  /** The list sign-in searches: the stored list, or the defaults when the
      entry is absent or unparseable (they are written back in that case). */
  function LoginUsers(stored: Stored<User>): (r: seq<User>)
    ensures stored.Parsed? ==> r == stored.items
    ensures !stored.Parsed? ==> r == DefaultUsers
  {
    if stored.Parsed? then stored.items else DefaultUsers
  }

  /** What sign-in leaves behind: the user list it stores and its verdict. */
  datatype LoginResult = LoginResult(users: seq<User>, session: Outcome<SessionUser>)

  /** `login`. The first user matching name and password decides: an inactive
      one fails, an active one signs in, the special account as administrator.
      Promoting the special account changes the matched record itself and
      then overwrites the first record with the same id, so with a repeated
      id both positions end up holding the promoted record. */
  function Login(stored: Stored<User>, input: string, password: string): (r: LoginResult)
    ensures var users := LoginUsers(stored);
            LoginIndex(users, input, password).None? ==> r == LoginResult(users, Err(InvalidCredentials))
    ensures var users := LoginUsers(stored);
            var k := LoginIndex(users, input, password);
            k.Some? && !users[k.value].isActive ==> r == LoginResult(users, Err(AccountDisabled))
    ensures var users := LoginUsers(stored);
            var k := LoginIndex(users, input, password);
            k.Some? && users[k.value].isActive ==>
              r.session == Ok(WithoutPassword(Access.Enforced(users[k.value])))
    ensures r.session.Ok? && IsSpecialEmail(r.session.value.email) ==> r.session.value.role == Admin
    ensures |r.users| == |LoginUsers(stored)|
    ensures var users := LoginUsers(stored);
            var k := LoginIndex(users, input, password);
            k.Some? && users[k.value].isActive && Access.Enforced(users[k.value]) == users[k.value] ==> r.users == users
    ensures var users := LoginUsers(stored);
            var k := LoginIndex(users, input, password);
            k.Some? && users[k.value].isActive && Access.Enforced(users[k.value]) != users[k.value] ==>
              var j := FirstWhere(users, (u: User) => u.id == users[k.value].id);
              j.Some? && j.value <= k.value
              && forall i :: 0 <= i < |users| ==>
                   r.users[i] == if i == k.value || i == j.value then Access.Enforced(users[k.value]) else users[i]
  {
    var users := LoginUsers(stored);
    match LoginIndex(users, input, password)
    case None => LoginResult(users, Err(InvalidCredentials))
    case Some(k) =>
      var found := users[k];
      if !found.isActive then LoginResult(users, Err(AccountDisabled))
      else
        var promoted := Access.Enforced(found);
        var written :=
          if promoted != found then
            match FirstWhere(users, (u: User) => u.id == found.id)
            case Some(j) => users[k := promoted][j := promoted]
            case None => users
          else users;
        LoginResult(written, Ok(WithoutPassword(promoted)))
  }

  predicate SomeAdmin(users: seq<User>)
  {
    exists k :: 0 <= k < |users| && users[k].role == Admin
  }

  /** The record `register` appends. */
  function NewAdmin(username: string, password: string, freshId: string): (u: User)
    ensures u.role == Admin && u.isActive && !u.forcePasswordChange
    ensures u.username == username && u.password == password && u.id == freshId
  {
    User(freshId, username, "Admin User", "admin@example.com", Admin, password, true, false, None)
  }

  /** `register`: creates the first administrator, and refuses once any
      administrator exists. An absent list reads as empty. */
  function Register(stored: Stored<User>, username: string, password: string, freshId: string): (r: Outcome<(seq<User>, SessionUser)>)
    ensures stored.Corrupt? ==> r == Err(StoreUnreadable)
    ensures !stored.Corrupt? && SomeAdmin(OrEmpty(stored)) ==> r == Err(AdminExists)
    ensures !stored.Corrupt? && !SomeAdmin(OrEmpty(stored)) ==>
              r == Ok((OrEmpty(stored) + [NewAdmin(username, password, freshId)],
                       WithoutPassword(NewAdmin(username, password, freshId))))
  {
    if stored.Corrupt? then Err(StoreUnreadable)
    else
      var users := OrEmpty(stored);
      if SomeAdmin(users) then Err(AdminExists)
      else
        var u := NewAdmin(username, password, freshId);
        Ok((users + [u], WithoutPassword(u)))
  }

  function ResetIndex(users: seq<User>, input: string): Option<nat>
  {
    FirstWhere(users, (u: User) => Identifies(u, input))
  }

  /** `resetPassword`: the first user the name identifies gets the new
      password and no pending change; an unknown name writes nothing. */
  function ResetPassword(stored: Stored<User>, input: string, newPassword: string): (r: Outcome<seq<User>>)
    ensures stored.Corrupt? ==> r == Err(StoreUnreadable)
    ensures !stored.Corrupt? && ResetIndex(OrEmpty(stored), input).None? ==> r == Err(UserNotFound)
    ensures !stored.Corrupt? && ResetIndex(OrEmpty(stored), input).Some? ==>
              var users, k := OrEmpty(stored), ResetIndex(OrEmpty(stored), input).value;
              r.Ok? && |r.value| == |users|
              && r.value[k] == users[k].(password := newPassword, forcePasswordChange := false)
              && forall j :: 0 <= j < |users| && j != k ==> r.value[j] == users[j]
  {
    if stored.Corrupt? then Err(StoreUnreadable)
    else
      var users := OrEmpty(stored);
      match ResetIndex(users, input)
      case None => Err(UserNotFound)
      case Some(k) => Ok(users[k := users[k].(password := newPassword, forcePasswordChange := false)])
  }

  /** A record carrying the special address, whatever its case. */
  predicate SpecialRecord(u: User)
  {
    IsSpecialEmail(u.email)
  }

  /** The special account made an administrator where it is first found (a
      record that already is one is written back unchanged), or appended when
      the list has none. */
  function WithSpecialAdmin(users: seq<User>): (r: seq<User>)
    ensures exists k :: 0 <= k < |r| && SpecialRecord(r[k]) && r[k].role == Admin
    ensures |users| <= |r| <= |users| + 1
    ensures forall j :: 0 <= j < |users| ==>
              r[j] == users[j] || (SpecialRecord(users[j]) && r[j] == users[j].(role := Admin))
    ensures FirstWhere(users, SpecialRecord).None? ==> r == users + [SpecialUser]
    ensures FirstWhere(users, SpecialRecord).Some? ==>
              var k := FirstWhere(users, SpecialRecord).value;
              r == users[k := users[k].(role := Admin)]
  {
    match FirstWhere(users, SpecialRecord)
    case Some(k) => Promote(users, k)
    case None => AddSpecial(users)
  }

  function Promote(users: seq<User>, k: nat): (r: seq<User>)
    requires k < |users| && SpecialRecord(users[k])
    ensures r == users[k := users[k].(role := Admin)]
    ensures SpecialRecord(r[k]) && r[k].role == Admin
    ensures forall j :: 0 <= j < |users| ==>
              r[j] == users[j] || (SpecialRecord(users[j]) && r[j] == users[j].(role := Admin))
  {
    users[k := users[k].(role := Admin)]
  }

  function AddSpecial(users: seq<User>): (r: seq<User>)
    ensures r == users + [SpecialUser]
    ensures SpecialRecord(r[|users|]) && r[|users|].role == Admin
  {
    SpecialEmailOfSpecialUser();
    users + [SpecialUser]
  }

  /** The list `initAuth` starts from: the defaults when the list is empty. */
  function Seeded(stored: Stored<User>): (r: seq<User>)
    ensures OrEmpty(stored) == [] ==> r == DefaultUsers
    ensures OrEmpty(stored) != [] ==> r == OrEmpty(stored)
  {
    if OrEmpty(stored) == [] then DefaultUsers else OrEmpty(stored)
  }

  /** The "user" session entry `initAuth` reads first: absent or empty, not
      parseable, or a signed-in user. */
  datatype UserEntry = NoEntry | Garbled | Entry(user: SessionUser)

  /** The user `initAuth` restores: the parsed session entry, if any. */
  function RestoredUser(entry: UserEntry): (r: Option<SessionUser>)
    ensures r.Some? <==> entry.Entry?
    ensures entry.Entry? ==> r.value == entry.user
  {
    if entry.Entry? then Some(entry.user) else None
  }

  /** The store as `initAuth` leaves it: an empty list is replaced by the
      defaults, then the special account is made an administrator or added.
      Both parses sit in the same guarded block, so an unparseable session
      entry or user list stops the whole initialisation and the store is
      left alone. */
  function Init(entry: UserEntry, stored: Stored<User>): (r: Outcome<seq<User>>)
    ensures entry.Garbled? || stored.Corrupt? ==> r == Err(StoreUnreadable)
    ensures !entry.Garbled? && !stored.Corrupt? ==> r.Ok?
    ensures r.Ok? ==> exists k :: 0 <= k < |r.value| && SpecialRecord(r.value[k]) && r.value[k].role == Admin
    ensures r.Ok? && OrEmpty(stored) != [] ==>
              var users := OrEmpty(stored);
              |users| <= |r.value| <= |users| + 1
              && forall j :: 0 <= j < |users| ==>
                   r.value[j] == users[j] || (SpecialRecord(users[j]) && r.value[j] == users[j].(role := Admin))
  {
    if entry.Garbled? || stored.Corrupt? then Err(StoreUnreadable) else Ok(WithSpecialAdmin(Seeded(stored)))
  }

  /** `hasPermission` of the hook: nobody signed in has none, an administrator
      has all, anyone else the five basic ones. */
  predicate HookHasPermission(user: Option<SessionUser>, permission: string)
  {
    user.Some? && (user.value.role == Admin || permission in Access.BasicPermissions)
  }

  // ---------------------------------------------------------------- lemmas

  /** The special account's stored spelling lower-cases to the special address. */
  lemma SpecialSpelling(s: string)
    requires s == "V.mondlane1@gmail.com"
    ensures IsSpecialEmail(s)
  {
    var l := Text.Lower(s);
    assert l[0] == 'v' && l[1] == '.' && l[2] == 'm' && l[3] == 'o' && l[4] == 'n' && l[5] == 'd'
           && l[6] == 'l' && l[7] == 'a' && l[8] == 'n' && l[9] == 'e' && l[10] == '1' && l[11] == '@'
           && l[12] == 'g' && l[13] == 'm' && l[14] == 'a' && l[15] == 'i' && l[16] == 'l' && l[17] == '.'
           && l[18] == 'c' && l[19] == 'o' && l[20] == 'm';
  }

  lemma SpecialEmailOfSpecialUser()
    ensures IsSpecialEmail(SpecialUser.email)
  {
    SpecialSpelling(SpecialUser.email);
  }

  lemma NotSpecialByLength(s: string)
    requires |s| != |SpecialEmail|
    ensures !IsSpecialEmail(s)
  {
    assert |Text.Lower(s)| == |s|;
  }

  /** On an empty store, initialisation yields exactly the four defaults,
      the special account among them already an administrator. */
  lemma InitSeedsDefaults(entry: UserEntry, stored: Stored<User>)
    requires !entry.Garbled? && !stored.Corrupt? && OrEmpty(stored) == []
    ensures Init(entry, stored) == Ok(DefaultUsers)
  {
    DefaultsShape(DefaultUsers);
    FourthIsFirst(DefaultUsers);
    PromotedIsFixed(DefaultUsers, 3);
  }

  /** When the first special record already is an administrator, the repair
      writes the list back unchanged. */
  lemma PromotedIsFixed(d: seq<User>, k: nat)
    requires FirstWhere(d, SpecialRecord) == Some(k) && d[k].role == Admin
    ensures WithSpecialAdmin(d) == d
  {
    assert d[k := d[k].(role := Admin)] == d;
  }

  /** Among the defaults the special account is the fourth, the first three
      addresses being of another length. */
  lemma DefaultsShape(d: seq<User>)
    requires d == DefaultUsers
    ensures |d| == 4 && SpecialRecord(d[3])
    ensures |d[0].email| != |SpecialEmail| && |d[1].email| != |SpecialEmail| && |d[2].email| != |SpecialEmail|
  {
    SpecialSpelling(d[3].email);
  }

  lemma FourthIsFirst(d: seq<User>)
    requires |d| == 4 && SpecialRecord(d[3])
    requires |d[0].email| != |SpecialEmail| && |d[1].email| != |SpecialEmail| && |d[2].email| != |SpecialEmail|
    ensures FirstWhere(d, SpecialRecord) == Some(3)
  {
    NotSpecialByLength(d[0].email);
    NotSpecialByLength(d[1].email);
    NotSpecialByLength(d[2].email);
    FirstWhereIs(d, SpecialRecord, 3);
  }

  lemma {:induction false} FirstWhereIs(users: seq<User>, f: User -> bool, k: nat)
    requires k < |users| && f(users[k])
    requires forall j :: 0 <= j < k ==> !f(users[j])
    ensures FirstWhere(users, f) == Some(k)
    decreases k
  {
    if k > 0 {
      assert !f(users[0]);
      FirstWhereIs(users[1..], f, k - 1);
    }
  }

  /** After initialisation some administrator exists, so `adminExists` holds. */
  lemma InitLeavesAdmin(entry: UserEntry, stored: Stored<User>)
    requires !entry.Garbled? && !stored.Corrupt?
    ensures Init(entry, stored).Ok? && SomeAdmin(Init(entry, stored).value)
  {
  }

  /** A successful registration leaves exactly one administrator: the new one. */
  lemma RegisterLeavesOneAdmin(stored: Stored<User>, username: string, password: string, freshId: string)
    requires Register(stored, username, password, freshId).Ok?
    ensures var users := Register(stored, username, password, freshId).value.0;
            users[|users| - 1].role == Admin
            && forall j :: 0 <= j < |users| - 1 ==> users[j].role != Admin
  {
    var users := OrEmpty(stored);
    var r := users + [NewAdmin(username, password, freshId)];
    forall j | 0 <= j < |r| - 1
      ensures r[j].role != Admin
    {
      assert r[j] == users[j];
    }
  }

  /** Registering twice fails the second time. */
  lemma RegisterOnce(stored: Stored<User>, username: string, password: string, freshId: string,
                     username2: string, password2: string, freshId2: string)
    requires Register(stored, username, password, freshId).Ok?
    ensures Register(Parsed(Register(stored, username, password, freshId).value.0), username2, password2, freshId2)
            == Err(AdminExists)
  {
    var users := Register(stored, username, password, freshId).value.0;
    assert users[|users| - 1].role == Admin;
  }

  /** After a password reset, signing in with the same name and the new
      password reaches the reset account, and succeeds exactly when the
      account is active. */
  lemma ResetThenLogin(stored: Stored<User>, input: string, newPassword: string)
    requires ResetPassword(stored, input, newPassword).Ok?
    ensures var users := ResetPassword(stored, input, newPassword).value;
            var k := ResetIndex(OrEmpty(stored), input).value;
            var r := Login(Parsed(users), input, newPassword);
            (r.session.Ok? <==> users[k].isActive)
            && (r.session.Ok? ==> r.session.value.id == users[k].id)
  {
    var before := OrEmpty(stored);
    var k := ResetIndex(before, input).value;
    var users := ResetPassword(stored, input, newPassword).value;
    assert Identifies(users[k], input) && users[k].password == newPassword;
    forall j | 0 <= j < k
      ensures !(Identifies(users[j], input) && users[j].password == newPassword)
    {
      assert users[j] == before[j];
    }
    FirstWhereIs(users, (u: User) => Identifies(u, input) && u.password == newPassword, k);
  }

  /** The hook never grants what the context's permission table withholds from
      the same user's role. */
  lemma HookWithinContext(u: User, stored: Access.StoredSession, permission: string)
    requires HookHasPermission(Some(WithoutPassword(u)), permission)
    ensures Access.HasPermission(Some(u), stored, permission)
  {
    if u.role != Admin {
      var k :| 0 <= k < |Access.BasicPermissions| && Access.BasicPermissions[k] == permission;
      assert Access.BasicPermissions[k] in Access.UserPermissions(u.role);
    }
  }

  /** The hook's test: false signed out, true for administrators, otherwise
      membership in the basic list. */
  lemma HookPermissionCases(user: Option<SessionUser>, permission: string)
    ensures user.None? ==> !HookHasPermission(user, permission)
    ensures user.Some? && user.value.role == Admin ==> HookHasPermission(user, permission)
    ensures user.Some? && user.value.role != Admin ==>
              (HookHasPermission(user, permission) <==> permission in Access.BasicPermissions)
  {
  }
}
