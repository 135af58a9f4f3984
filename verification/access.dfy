/**
 * Access control of the application context: the permission table by role,
 * the administrator test with its special account and its fallback to the
 * stored session, and the guards of the user store.
 */
module Access {
  import opened Common
  import opened Domain

  /** Every permission the system knows, in declaration order. */
  const AllPermissions: seq<string> := [
    "manage_users", "view_users", "create_user", "edit_user", "delete_user", "reset_password",
    "manage_fornecedores", "view_fornecedores", "create_fornecedor", "edit_fornecedor", "delete_fornecedor",
    "manage_pagamentos", "view_pagamentos", "create_pagamento", "edit_pagamento", "delete_pagamento", "move_pagamento",
    "view_relatorio_divida", "view_relatorio_fornecedor", "view_relatorio_cliente", "view_relatorio_financeiro",
    "view_controlo_cheques", "view_fundo_maneio", "manage_fundo_maneio", "view_reconciliacao_bancaria",
    "view_reconciliacao_interna", "view_calendario_fiscal", "view_previsao_orcamento", "notificar_fornecedor",
    "approve_bank_operations", "approve_petty_cash"]

  /** The permissions of a regular user, also used by the authentication hook. */
  const BasicPermissions: seq<string> := [
    "view_pagamentos", "view_relatorio_divida", "view_relatorio_fornecedor", "view_controlo_cheques", "view_fundo_maneio"]

  /** `getUserPermissions`: the list granted to a role. */
  function UserPermissions(role: Role): (r: seq<string>)
    ensures role == Admin ==> r == AllPermissions
    ensures role == RegularUser ==> r == BasicPermissions
    ensures forall k :: 0 <= k < |r| ==> r[k] in AllPermissions
    ensures forall k :: 0 <= k < |BasicPermissions| ==> BasicPermissions[k] in r
  {
    match role
    case Admin => AllPermissions
    case Reitor =>
      ["view_pagamentos", "view_relatorio_divida", "view_relatorio_fornecedor", "view_relatorio_financeiro",
       "view_controlo_cheques", "view_fundo_maneio", "view_reconciliacao_bancaria", "view_reconciliacao_interna",
       "view_calendario_fiscal", "view_previsao_orcamento", "approve_bank_operations"]
    case DirectoraFinanceira =>
      ["view_pagamentos", "create_pagamento", "edit_pagamento", "delete_pagamento", "view_relatorio_divida",
       "view_relatorio_fornecedor", "view_relatorio_cliente", "view_relatorio_financeiro", "view_controlo_cheques",
       "view_fundo_maneio", "view_reconciliacao_bancaria", "view_reconciliacao_interna", "view_calendario_fiscal",
       "view_previsao_orcamento", "approve_bank_operations"]
    case Tesoureira =>
      ["view_pagamentos", "create_pagamento", "edit_pagamento", "view_relatorio_divida", "view_relatorio_fornecedor",
       "view_controlo_cheques", "view_fundo_maneio", "manage_fundo_maneio", "approve_petty_cash"]
    case RegularUser => BasicPermissions
  }

  /** The session record kept in browser storage under "user", as a fallback
      when no user is signed in: absent, unparseable, or carrying a role text. */
  datatype StoredSession = NoSession | Unparseable | Session(role: string)

  /** `isAdmin`. */
  predicate IsAdmin(current: Option<User>, stored: StoredSession)
  {
    match current
    case None => stored.Session? && stored.role == "admin"
    case Some(u) => IsSpecialEmail(u.email) || u.role == Admin
  }

  /** `hasPermission` of the application context. */
  predicate HasPermission(current: Option<User>, stored: StoredSession, permission: string)
  {
    match current
    case None => stored.Session? && stored.role == "admin"
    case Some(u) => IsSpecialEmail(u.email) || u.role == Admin || permission in UserPermissions(u.role)
  }

  /** `addUser`: only an administrator may append a user, which gets a fresh id. */
  function AddUser(current: Option<User>, stored: StoredSession, users: seq<User>, newUser: User, freshId: string): (r: seq<User>)
    ensures !IsAdmin(current, stored) ==> r == users
    ensures IsAdmin(current, stored) ==> r == users + [newUser.(id := freshId)]
  {
    if !IsAdmin(current, stored) then users else users + [newUser.(id := freshId)]
  }

  /** The record `updateUser` stores: the special account is kept an administrator. */
  function Enforced(u: User): (r: User)
    ensures IsSpecialEmail(u.email) ==> r == u.(role := Admin)
    ensures !IsSpecialEmail(u.email) ==> r == u
  {
    if IsSpecialEmail(u.email) && u.role != Admin then u.(role := Admin) else u
  }

  /** `updateUser`: an administrator replaces every user with the record's id. */
  function UpdateUser(current: Option<User>, stored: StoredSession, users: seq<User>, updated: User): (r: seq<User>)
    ensures !IsAdmin(current, stored) ==> r == users
    ensures |r| == |users|
    ensures forall k :: 0 <= k < |users| && users[k].id != updated.id ==> r[k] == users[k]
    ensures IsAdmin(current, stored) ==> forall k :: 0 <= k < |users| && users[k].id == updated.id ==> r[k] == Enforced(updated)
  {
    if !IsAdmin(current, stored) then users
    else
      var u := Enforced(updated);
      seq(|users|, k requires 0 <= k < |users| => if users[k].id == updated.id then u else users[k])
  }

  /** The users without those carrying the id, the others kept in order. */
  function WithoutUser(users: seq<User>, id: string): (r: seq<User>)
    ensures forall u :: u in r <==> u in users && u.id != id
    ensures (forall u :: u in users ==> u.id != id) ==> r == users
  {
    if users == [] then []
    else if users[0].id == id then WithoutUser(users[1..], id)
    else [users[0]] + WithoutUser(users[1..], id)
  }

  /** The first user with the id. */
  function FindUser(users: seq<User>, id: string): (r: Option<User>)
    ensures r.Some? ==> r.value in users && r.value.id == id
    ensures r.None? ==> forall u :: u in users ==> u.id != id
    ensures r.Some? ==> exists k :: 0 <= k < |users| && users[k] == r.value && forall j :: 0 <= j < k ==> users[j].id != id
  {
    if users == [] then None
    else if users[0].id == id then Some(users[0])
    else
      var r := FindUser(users[1..], id);
      if r.Some? then
        var k :| 0 <= k < |users[1..]| && users[1..][k] == r.value && forall j :: 0 <= j < k ==> users[1..][j].id != id;
        assert users[k + 1] == r.value;
        r
      else r
  }

  /** Why `deleteUser` refuses: the caller is not an administrator, deletes
      themself, or targets the special account. */
  predicate DeleteRefused(current: Option<User>, stored: StoredSession, users: seq<User>, userId: string)
  {
    !IsAdmin(current, stored)
    || (current.Some? && current.value.id == userId)
    || (var t := FindUser(users, userId); t.Some? && IsSpecialEmail(t.value.email))
  }

  /** `deleteUser`. */
  function DeleteUser(current: Option<User>, stored: StoredSession, users: seq<User>, userId: string): (r: seq<User>)
    ensures DeleteRefused(current, stored, users, userId) ==> r == users
    ensures !DeleteRefused(current, stored, users, userId) ==> forall u :: u in r <==> u in users && u.id != userId
    ensures !DeleteRefused(current, stored, users, userId) ==> r == WithoutUser(users, userId)
  {
    if DeleteRefused(current, stored, users, userId) then users else WithoutUser(users, userId)
  }

  predicate UniqueUserIds(users: seq<User>)
  {
    forall i, j :: 0 <= i < j < |users| ==> users[i].id != users[j].id
  }

  // ---------------------------------------------------------------- lemmas

  /** Removal works piecewise over a concatenation; with `WithoutUserSingle`,
      the remaining users keep their order and their multiplicity. */
  lemma {:induction false} WithoutUserAppend(a: seq<User>, b: seq<User>, id: string)
    ensures WithoutUser(a + b, id) == WithoutUser(a, id) + WithoutUser(b, id)
    decreases |a|
  {
    if a == [] {
      assert a + b == b;
    } else {
      assert (a + b)[0] == a[0] && (a + b)[1..] == a[1..] + b;
      WithoutUserAppend(a[1..], b, id);
    }
  }

  /** A single user is kept exactly when its id differs. */
  lemma WithoutUserSingle(u: User, id: string)
    ensures WithoutUser([u], id) == if u.id == id then [] else [u]
  {
    assert [u][1..] == [];
  }

  /** An administrator who adds a user under an id nobody holds, and then
      deletes that id, gets the original list back, unless the new record is
      the special account or the administrator's own id, which the deletion
      refuses. */
  lemma AddThenDelete(current: Option<User>, stored: StoredSession, users: seq<User>, newUser: User, freshId: string)
    requires IsAdmin(current, stored)
    requires forall u :: u in users ==> u.id != freshId
    ensures var added := AddUser(current, stored, users, newUser, freshId);
            var refused := (current.Some? && current.value.id == freshId) || IsSpecialEmail(newUser.email);
            DeleteUser(current, stored, added, freshId) == if refused then added else users
  {
    var added := AddUser(current, stored, users, newUser, freshId);
    var u := newUser.(id := freshId);
    assert added == users + [u];
    FindUserAppended(users, u);
    WithoutUserAppend(users, [u], freshId);
    WithoutUserSingle(u, freshId);
    assert users + [] == users;
  }

  lemma {:induction false} FindUserAppended(users: seq<User>, u: User)
    requires forall v :: v in users ==> v.id != u.id
    ensures FindUser(users + [u], u.id) == Some(u)
    decreases |users|
  {
    if users != [] {
      assert (users + [u])[1..] == users[1..] + [u];
      FindUserAppended(users[1..], u);
    }
  }

  /** Whoever passes the administrator test holds every permission. */
  lemma AdminHasEveryPermission(current: Option<User>, stored: StoredSession, permission: string)
    requires IsAdmin(current, stored)
    ensures HasPermission(current, stored, permission)
  {
  }

  /** For a signed-in user other than the special account and administrators,
      holding a permission is membership in the role's list. */
  lemma PermissionIsTableMembership(u: User, stored: StoredSession, permission: string)
    requires !IsSpecialEmail(u.email) && u.role != Admin
    ensures HasPermission(Some(u), stored, permission) <==> permission in UserPermissions(u.role)
  {
  }

  /** The two approval permissions go to the roles that act in the approval workflow. */
  lemma ApprovalPermissionsByRole(role: Role)
    ensures "approve_bank_operations" in UserPermissions(role) <==> role in {Admin, Reitor, DirectoraFinanceira}
    ensures "approve_petty_cash" in UserPermissions(role) <==> role in {Admin, Tesoureira}
  {
    if role == Reitor {
      assert UserPermissions(role)[10] == "approve_bank_operations";
    } else if role == DirectoraFinanceira {
      assert UserPermissions(role)[14] == "approve_bank_operations";
    } else if role == Tesoureira {
      assert UserPermissions(role)[8] == "approve_petty_cash";
    } else if role == Admin {
      assert AllPermissions[29] == "approve_bank_operations";
      assert AllPermissions[30] == "approve_petty_cash";
    }
  }

  /** If every special-account record is an administrator, it stays one after any update. */
  lemma UpdateKeepsSpecialAdmin(current: Option<User>, stored: StoredSession, users: seq<User>, updated: User)
    requires forall u :: u in users && IsSpecialEmail(u.email) ==> u.role == Admin
    ensures forall u :: u in UpdateUser(current, stored, users, updated) && IsSpecialEmail(u.email) ==> u.role == Admin
  {
    var r := UpdateUser(current, stored, users, updated);
    forall u | u in r && IsSpecialEmail(u.email)
      ensures u.role == Admin
    {
      var k :| 0 <= k < |r| && r[k] == u;
      assert users[k] in users;
    }
  }

  /** With user ids unique, no deletion removes the special account. */
  lemma DeleteKeepsSpecial(current: Option<User>, stored: StoredSession, users: seq<User>, userId: string)
    requires UniqueUserIds(users)
    ensures forall u :: u in users && IsSpecialEmail(u.email) ==> u in DeleteUser(current, stored, users, userId)
  {
    forall u | u in users && IsSpecialEmail(u.email)
      ensures u in DeleteUser(current, stored, users, userId)
    {
      var i :| 0 <= i < |users| && users[i] == u;
    }
  }
}
