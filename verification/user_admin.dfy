/**
 * The user-management page: adding a user, switching an account on or off,
 * an administrator's password reset, forcing a password change, editing a
 * record, and the permission checklist of the permissions dialog. Every
 * change goes through the application context's `updateUser`/`addUser`, so
 * the context's administrator test and special-account rule apply.
 */
module UserAdmin {
  import opened Common
  import opened Domain
  import Access
  import Auth

  /** The add-user form: everything but the id and the two flags. */
  datatype NewUserForm = NewUserForm(username: string, fullName: string, email: string, role: Role, password: string)

  /** The form is accepted with a name, a full name and a password; the
      e-mail may stay empty. */
  predicate Accepted(f: NewUserForm)
  {
    f.username != "" && f.fullName != "" && f.password != ""
  }

  /** `handleAddUser`: an accepted form is added, active and obliged to change
      its password at first sign-in; a refused form changes nothing. */
  function AddUserHandler(current: Option<User>, stored: Access.StoredSession, users: seq<User>,
                          f: NewUserForm, freshId: string): (r: seq<User>)
    ensures !Accepted(f) || !Access.IsAdmin(current, stored) ==> r == users
    ensures Accepted(f) && Access.IsAdmin(current, stored) ==>
              |r| == |users| + 1 && r[..|users|] == users
              && r[|users|] == User(freshId, f.username, f.fullName, f.email, f.role, f.password, true, true, None)
  {
    if Accepted(f) then
      var r := Access.AddUser(current, stored, users,
                              User("", f.username, f.fullName, f.email, f.role, f.password, true, true, None), freshId);
      assert Access.IsAdmin(current, stored) ==> r[..|users|] == users;
      r
    else users
  }

  /** `handleToggleUserStatus`: the account's record with its active flag flipped. */
  function ToggleStatus(current: Option<User>, stored: Access.StoredSession, users: seq<User>, u: User): (r: seq<User>)
    ensures |r| == |users|
    ensures forall k :: 0 <= k < |users| && users[k].id != u.id ==> r[k] == users[k]
    ensures Access.IsAdmin(current, stored) ==> forall k :: 0 <= k < |users| && users[k].id == u.id ==>
              r[k].isActive == !u.isActive && r[k] == Access.Enforced(u).(isActive := !u.isActive)
    ensures !Access.IsAdmin(current, stored) ==> r == users
  {
    Access.UpdateUser(current, stored, users, u.(isActive := !u.isActive))
  }

  /** `handleEditUser`: the edited record replaces the stored one. */
  function EditUser(current: Option<User>, stored: Access.StoredSession, users: seq<User>, editing: Option<User>): (r: seq<User>)
    ensures editing.None? || !Access.IsAdmin(current, stored) ==> r == users
    ensures |r| == |users|
    ensures editing.Some? && Access.IsAdmin(current, stored) ==>
              forall k :: 0 <= k < |users| ==>
                r[k] == (if users[k].id == editing.value.id then Access.Enforced(editing.value) else users[k])
  {
    if editing.Some? then Access.UpdateUser(current, stored, users, editing.value) else users
  }

  /** `handleResetPassword`: with a selected account and a non-empty password,
      the account gets that password and must change it at the next sign-in. */
  function ResetPasswordHandler(current: Option<User>, stored: Access.StoredSession, users: seq<User>,
                                editing: Option<User>, newPassword: string): (r: seq<User>)
    ensures editing.None? || newPassword == "" || !Access.IsAdmin(current, stored) ==> r == users
    ensures |r| == |users|
    ensures editing.Some? ==> forall k :: 0 <= k < |users| && users[k].id != editing.value.id ==> r[k] == users[k]
    ensures editing.Some? && newPassword != "" && Access.IsAdmin(current, stored) ==>
              forall k :: 0 <= k < |users| && users[k].id == editing.value.id ==>
                r[k].password == newPassword && r[k].forcePasswordChange
                && r[k] == Access.Enforced(editing.value).(password := newPassword, forcePasswordChange := true)
  {
    if editing.Some? && newPassword != "" then
      Access.UpdateUser(current, stored, users, editing.value.(password := newPassword, forcePasswordChange := true))
    else users
  }

  /** `handleForcePasswordChange`: only the pending-change flag is raised. */
  function ForcePasswordChange(current: Option<User>, stored: Access.StoredSession, users: seq<User>, u: User): (r: seq<User>)
    ensures |r| == |users|
    ensures forall k :: 0 <= k < |users| && users[k].id != u.id ==> r[k] == users[k]
    ensures Access.IsAdmin(current, stored) ==> forall k :: 0 <= k < |users| && users[k].id == u.id ==>
              r[k].forcePasswordChange && r[k] == Access.Enforced(u).(forcePasswordChange := true)
    ensures !Access.IsAdmin(current, stored) ==> r == users
  {
    Access.UpdateUser(current, stored, users, u.(forcePasswordChange := true))
  }

  // -------------------------------------------------------- permission list

  /** The checklist without any occurrence of the permission, the others in order. */
  function Remove(l: seq<string>, p: string): (r: seq<string>)
    ensures forall x :: x in r <==> x in l && x != p
    ensures multiset(r) == multiset(l)[p := 0]
  {
    if l == [] then []
    else
      var rest := Remove(l[1..], p);
      assert l == [l[0]] + l[1..];
      if l[0] == p then rest else [l[0]] + rest
  }

  /** `handleTogglePermission`: a checked permission loses every occurrence,
      an unchecked one is appended. */
  function TogglePermission(prev: seq<string>, p: string): (r: seq<string>)
    ensures p in prev ==> forall x :: x in r <==> x in prev && x != p
    ensures p !in prev ==> r == prev + [p]
    ensures p in r <==> p !in prev
    ensures forall x :: x != p ==> (x in r <==> x in prev)
  {
    if p in prev then Remove(prev, p) else prev + [p]
  }

  predicate NoDuplicates(l: seq<string>)
  {
    forall i, j :: 0 <= i < j < |l| ==> l[i] != l[j]
  }

  // ---------------------------------------------------------------- lemmas

  /** An administrator who adds an accepted form under an id nobody holds,
      and then deletes that id, gets the original list back, unless the
      deletion is refused for the special address or the administrator's own id. */
  lemma AddHandlerThenDelete(current: Option<User>, stored: Access.StoredSession, users: seq<User>,
                             f: NewUserForm, freshId: string)
    requires Access.IsAdmin(current, stored) && Accepted(f)
    requires forall u :: u in users ==> u.id != freshId
    ensures var added := AddUserHandler(current, stored, users, f, freshId);
            var refused := (current.Some? && current.value.id == freshId) || IsSpecialEmail(f.email);
            Access.DeleteUser(current, stored, added, freshId) == if refused then added else users
  {
    Access.AddThenDelete(current, stored, users,
                         User("", f.username, f.fullName, f.email, f.role, f.password, true, true, None), freshId);
  }

  /** Filtering out a value the list does not hold changes nothing. */
  lemma {:induction false} RemoveAbsent(l: seq<string>, p: string)
    requires p !in l
    ensures Remove(l, p) == l
    decreases |l|
  {
    if l != [] {
      assert forall x :: x in l[1..] ==> x in l;
      RemoveAbsent(l[1..], p);
      assert l == [l[0]] + l[1..];
    }
  }

  lemma {:induction false} RemoveAppend(l: seq<string>, tail: seq<string>, p: string)
    ensures Remove(l + tail, p) == Remove(l, p) + Remove(tail, p)
    decreases |l|
  {
    if l != [] {
      assert (l + tail)[1..] == l[1..] + tail;
      assert (l + tail)[0] == l[0];
      RemoveAppend(l[1..], tail, p);
    } else {
      assert l + tail == tail;
    }
  }

  /** Checking a permission and unchecking it again restores the list exactly. */
  lemma ToggleAbsentTwice(l: seq<string>, p: string)
    requires p !in l
    ensures TogglePermission(TogglePermission(l, p), p) == l
  {
    RemoveAppend(l, [p], p);
    RemoveAbsent(l, p);
    assert Remove([p], p) == [];
  }

  /** Filtering out a value held once, at `i`, just cuts that position out. */
  lemma RemoveSingle(l: seq<string>, p: string, i: nat)
    requires i < |l| && l[i] == p && p !in l[..i] && p !in l[i + 1..]
    ensures Remove(l, p) == l[..i] + l[i + 1..]
  {
    var pre, post := l[..i], l[i + 1..];
    assert l == (pre + [p]) + post;
    assert Remove([p], p) == [] by { assert [p][1..] == []; }
    calc {
      Remove(l, p);
      { RemoveAppend(pre + [p], post, p); }
      Remove(pre + [p], p) + Remove(post, p);
      { RemoveAppend(pre, [p], p); }
      Remove(pre, p) + Remove([p], p) + Remove(post, p);
      { RemoveAbsent(pre, p); RemoveAbsent(post, p); }
      pre + [] + post;
    }
    assert pre + [] + post == pre + post;
  }

  /** Unchecking a permission and checking it again restores the same
      permissions, each once, but moves that permission to the end: the list
      comes back unchanged exactly when it already ended there. */
  lemma TogglePresentTwice(l: seq<string>, p: string)
    requires p in l && NoDuplicates(l)
    ensures multiset(TogglePermission(TogglePermission(l, p), p)) == multiset(l)
    ensures TogglePermission(TogglePermission(l, p), p) == l <==> l[|l| - 1] == p
  {
    var i :| 0 <= i < |l| && l[i] == p;
    OnlyAt(l, p, i);
    RemoveSingle(l, p, i);
    assert TogglePermission(TogglePermission(l, p), p) == l[..i] + l[i + 1..] + [p];
    MoveToEnd(l, i);
  }

  lemma OnlyAt(l: seq<string>, p: string, i: nat)
    requires NoDuplicates(l) && i < |l| && l[i] == p
    ensures p !in l[..i] && p !in l[i + 1..]
  {
    assert forall j :: 0 <= j < |l| && j != i ==> l[j] != p;
  }

  /** Moving the element at `i` to the end keeps the multiset, and keeps the
      list itself exactly when `i` already is the last position of a list
      without duplicates. */
  lemma MoveToEnd(l: seq<string>, i: nat)
    requires NoDuplicates(l) && i < |l|
    ensures multiset(l[..i] + l[i + 1..] + [l[i]]) == multiset(l)
    ensures l[..i] + l[i + 1..] + [l[i]] == l <==> l[|l| - 1] == l[i]
  {
    assert l == l[..i] + [l[i]] + l[i + 1..];
    if l[|l| - 1] == l[i] {
      assert i == |l| - 1;
      assert l[i + 1..] == [];
    }
  }

  /** Switching an account twice from its listed record restores the store
      when the record is not a special account waiting to be promoted. */
  lemma ToggleStatusTwice(current: Option<User>, stored: Access.StoredSession, users: seq<User>, k: nat)
    requires Access.IsAdmin(current, stored) && Access.UniqueUserIds(users)
    requires k < |users| && Access.Enforced(users[k]) == users[k]
    ensures var once := ToggleStatus(current, stored, users, users[k]);
            ToggleStatus(current, stored, once, once[k]) == users
  {
    var u := users[k];
    var once := ToggleStatus(current, stored, users, u);
    var twice := ToggleStatus(current, stored, once, once[k]);
    assert once[k] == u.(isActive := !u.isActive);
    forall j | 0 <= j < |users|
      ensures twice[j] == users[j]
    {
      if j != k {
        assert users[j].id != u.id;
      }
    }
  }

  /** Forcing a password change on the record it produced changes nothing more. */
  lemma ForceIdempotent(current: Option<User>, stored: Access.StoredSession, users: seq<User>, u: User, k: nat)
    requires k < |users| && users[k].id == u.id
    ensures var once := ForcePasswordChange(current, stored, users, u);
            ForcePasswordChange(current, stored, once, once[k]) == once
  {
  }

  /** After an administrator resets an active account's password, signing in
      with a name that identifies it and the new password succeeds as that
      account, which must then change its password — provided no earlier
      account answers to the same name and password. */
  lemma ResetThenSignIn(current: Option<User>, stored: Access.StoredSession, users: seq<User>,
                        k: nat, newPassword: string, input: string)
    requires Access.IsAdmin(current, stored) && Access.UniqueUserIds(users)
    requires k < |users| && newPassword != "" && users[k].isActive && Auth.Identifies(users[k], input)
    requires forall j :: 0 <= j < k ==> !(Auth.Identifies(users[j], input) && users[j].password == newPassword)
    ensures var after := ResetPasswordHandler(current, stored, users, Some(users[k]), newPassword);
            var s := Auth.Login(Parsed(after), input, newPassword).session;
            s.Ok? && s.value.id == users[k].id && s.value.forcePasswordChange
  {
    var after := ResetPasswordHandler(current, stored, users, Some(users[k]), newPassword);
    assert after[k] == Access.Enforced(users[k]).(password := newPassword, forcePasswordChange := true);
    assert Auth.Identifies(after[k], input);
    forall j | 0 <= j < k
      ensures !(Auth.Identifies(after[j], input) && after[j].password == newPassword)
    {
      assert users[j].id != users[k].id;
    }
    Auth.FirstWhereIs(after, (u: User) => Auth.Identifies(u, input) && u.password == newPassword, k);
  }

  /** A new account starts active and with a pending password change, and an
      empty e-mail does not block it. */
  lemma AddedAccountMustChangePassword(current: Option<User>, stored: Access.StoredSession, users: seq<User>,
                                       f: NewUserForm, freshId: string)
    requires Access.IsAdmin(current, stored) && Accepted(f)
    ensures var r := AddUserHandler(current, stored, users, f, freshId);
            r[|users|].isActive && r[|users|].forcePasswordChange && r[|users|].email == f.email
  {
  }
}
