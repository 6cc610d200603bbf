/**
 * The administrator's user management: the role filtered, paginated user
 * list, changing a user's role, and deleting a user other than oneself.
 * Query texts are modelled with their whitespace runs collapsed to single
 * spaces; the rows each query returns are inputs.
 */
module AdminController {
  import opened Wrappers
  import opened Strings
  import opened JsValues
  import opened JsNumbers
  import opened Http
  import opened Sql
  import opened Pagination
  import opened Constants

  // ---- getAllUsers ----

  const UserColumns: string := "SELECT id, name, email, phone, role"
  const UserMoreColumns: string := ", language_preference, location"
  const UserFrom: string := ", created_at FROM users WHERE 1=1"
  const UsersBase: string := UserColumns + UserMoreColumns + UserFrom
  const UsersOrder: string := "created_at DESC"

  /** `getAllUsers`: page 1 and limit 20 by default, an optional role filter. */
  method GetAllUsers(query: JsValue, pageRows: DbOutcome, countRows: DbOutcome) returns (h: Handled)
    ensures var page := DefaultTo(Get(query, "page"), Num(1));
      var limit := DefaultTo(Get(query, "limit"), Num(20));
      var role := Get(query, "role");
      var fs := OneFilter("role", role);
      h == PageList("users",
        Query(PageSql(UsersBase, 0, fs, UsersOrder), PageParams([], fs, Val(limit), Numeric(Offset(page, limit)))),
        Query(OneFilterCount("users", "role", role), []), pageRows, countRows, page, limit, "Failed to fetch users")
  {
    var page := DefaultTo(Get(query, "page"), Num(1));
    var limit := DefaultTo(Get(query, "limit"), Num(20));
    var role := Get(query, "role");
    var sql, params := OneFilterPage(UsersBase, "role", role, UsersOrder, limit, Offset(page, limit));
    var count := OneFilterCount("users", "role", role);
    h := PageList("users", Query(sql, params), Query(count, []), pageRows, countRows, page, limit, "Failed to fetch users");
  }

  lemma UsersBasePlain()
    ensures NoMarker(UsersBase)
  {
    UserColumnsPlain();
    UserMoreColumnsPlain();
    UserFromPlain();
    NoMarkerConcat(UserColumns, UserMoreColumns);
    NoMarkerConcat(UserColumns + UserMoreColumns, UserFrom);
  }

  // Each text is checked for markers on its own, character by character.
  lemma UserColumnsPlain() ensures NoMarker(UserColumns) {}
  lemma UserMoreColumnsPlain() ensures NoMarker(UserMoreColumns) {}
  lemma UserFromPlain() ensures NoMarker(UserFrom) {}

  /**
   * The role filter is `$1` followed by LIMIT `$2` and OFFSET `$3`; without a
   * role LIMIT and OFFSET are `$1` and `$2`. The count query filters on the
   * same role.
   */
  lemma UsersPlaceholders(role: JsValue, limit: JsValue, offset: Number)
    ensures Placeholders(PageSql(UsersBase, 0, OneFilter("role", role), UsersOrder)) ==
      if Truthy(role) then [1, 2, 3] else [1, 2]
    ensures PageParams([], OneFilter("role", role), Val(limit), Numeric(offset)) ==
      if Truthy(role) then [Val(role), Val(limit), Numeric(offset)] else [Val(limit), Numeric(offset)]
    ensures Truthy(role) <==> OneFilterCount("users", "role", role) != "SELECT COUNT(*) FROM users"
  {
    UsersBasePlain();
    assert NoMarker("role") && NoMarker(UsersOrder);
    OnePagePlaceholders(UsersBase, "role", role, UsersOrder);
    OneFilterParams("role", role, Val(limit), Numeric(offset));
    UsersCountFilters(role);
  }

  lemma UsersCountFilters(role: JsValue)
    ensures Truthy(role) <==> OneFilterCount("users", "role", role) != "SELECT COUNT(*) FROM users"
  {
    OneFilterCountAgrees("users", "role", "role", role);
    assert "SELECT COUNT(*) FROM " + "users" == "SELECT COUNT(*) FROM users";
  }

  // ---- changeUserRole ----

  const RoleRequired: string := "Valid role (farmer/admin) is required"

  const RoleSet: string := "UPDATE users SET role = "
  const RoleWhere: string := ", updated_at = CURRENT_TIMESTAMP WHERE id = "
  const RoleReturning: string := " RETURNING id, name, email, role"
  const RoleSql: string := RoleSet + "$1" + RoleWhere + "$2" + RoleReturning

  /** `changeUserRole`: the new role is `$1`, the user's id `$2`. */
  function ChangeUserRole(id: JsValue, body: JsValue, result: DbOutcome): (h: Handled)
    ensures !ValidRole(Get(body, "role")) <==> h == Handled(ErrorReply(400, RoleRequired), [Release])
    ensures ValidRole(Get(body, "role")) ==> h.trace == [Query(RoleSql, [Val(Get(body, "role")), Val(id)]), Release]
    ensures h.reply.status == 404 <==> ValidRole(Get(body, "role")) && result == Rows([])
    ensures h.reply.status == 200 <==> ValidRole(Get(body, "role")) && result.Rows? && result.rows != []
  {
    var role := Get(body, "role");
    if !Truthy(role) || !ValidRole(role) then Handled(ErrorReply(400, RoleRequired), [Release])
    else
      var trace := [Query(RoleSql, [Val(role), Val(id)]), Release];
      match result
      case DbFault(_, _) => Handled(ErrorReply(500, "Failed to change user role"), trace)
      case Rows(rows) =>
        if |rows| == 0 then Handled(ErrorReply(404, "User not found"), trace)
        else Handled(MessageDataReply(200, "User role updated successfully", rows[0]), trace)
  }

  lemma RolePlaceholders()
    ensures Placeholders(RoleSql) == [1, 2]
  {
    assert NoMarker(RoleSet) && NoMarker(RoleWhere) && NoMarker(RoleReturning) && RoleWhere[0] == ',' && RoleReturning[0] == ' ' by {
      RolePiecesPlain();
    }
    TwoMarkers(RoleSet, RoleWhere, RoleReturning);
  }

  lemma RolePiecesPlain()
    ensures NoMarker(RoleSet) && NoMarker(RoleWhere) && NoMarker(RoleReturning)
    ensures RoleWhere[0] == ',' && RoleReturning[0] == ' '
  {
    RoleSetPlain();
    RoleWherePlain();
    RoleReturningPlain();
  }

  // Each text is checked for markers on its own, character by character.
  lemma RoleSetPlain() ensures NoMarker(RoleSet) {}
  lemma RoleWherePlain() ensures NoMarker(RoleWhere) {}
  lemma RoleReturningPlain() ensures NoMarker(RoleReturning) {}

  /** Two consecutive markers `$1`, `$2` between texts without markers. */
  lemma TwoMarkers(a: string, b: string, c: string)
    requires NoMarker(a) && NoMarker(b) && NoMarker(c)
    requires b != [] && b[0] == ',' && c != [] && c[0] == ' '
    ensures Placeholders(a + "$1" + b + "$2" + c) == [1, 2]
  {
    DigitMarker(a, 1, "$1");
    DigitMarker(b, 2, "$2");
    var p1, p2 := a + "$1", b + "$2";
    ConcatAssoc(p1, b, "$2");
    PlaceholdersConcat(p1, p2);
    PlaceholdersNone(c);
    PlaceholdersConcat(p1 + p2, c);
  }

  // ---- deleteUser ----

  const SelfDelete: string := "You cannot delete your own account from admin panel"
  const DeleteUserSql: string := "DELETE FROM users WHERE id = $1 RETURNING id"

  /** `parseInt(id) === req.user.userId`; a NaN parse equals nothing. */
  predicate IsSelf(id: JsValue, user: JsValue) {
    match ParseInt(ToJsString(id))
    case Some(k) => StrictEquals(Num(k), Get(user, "userId"))
    case None => false
  }

  /** `deleteUser`: an administrator cannot delete the account they are signed in with. */
  function DeleteUser(id: JsValue, user: JsValue, result: DbOutcome): (h: Handled)
    ensures IsSelf(id, user) <==> h == Handled(ErrorReply(400, SelfDelete), [Release])
    ensures !IsSelf(id, user) ==> h.trace == [Query(DeleteUserSql, [Val(id)]), Release]
    ensures h.reply.status == 404 <==> !IsSelf(id, user) && result == Rows([])
    ensures h.reply.status == 200 <==> !IsSelf(id, user) && result.Rows? && result.rows != []
  {
    if IsSelf(id, user) then Handled(ErrorReply(400, SelfDelete), [Release])
    else
      var trace := [Query(DeleteUserSql, [Val(id)]), Release];
      match result
      case DbFault(_, _) => Handled(ErrorReply(500, "Failed to delete user"), trace)
      case Rows(rows) =>
        if |rows| == 0 then Handled(ErrorReply(404, "User not found"), trace)
        else Handled(MessageReply(200, "User deleted successfully"), trace)
  }

  /**
   * The decimal path id of the signed-in user is refused before any delete is
   * issued; the id of any other numeric user goes to the database.
   */
  lemma SelfDeleteGuard(n: nat, m: int, result: DbOutcome)
    ensures var self := Obj([Field("userId", Num(n))]);
      DeleteUser(Str(NatToString(n)), self, result).trace == [Release]
    ensures var other := Obj([Field("userId", Num(m))]);
      m != n ==> DeleteUser(Str(NatToString(n)), other, result).trace == [Query(DeleteUserSql, [Val(Str(NatToString(n)))]), Release]
  {
    IsSelfExactly(n, n);
    IsSelfExactly(n, m);
  }

  lemma IsSelfExactly(n: nat, m: int)
    ensures IsSelf(Str(NatToString(n)), Obj([Field("userId", Num(m))])) <==> m == n
  {
    ParseIntOfNatToString(n);
    LookupAt([Field("userId", Num(m))], 0, "userId");
  }

  /** A user id that is not a number, such as a text id in the token, never counts as oneself. */
  lemma NonNumericUserIdNeverSelf(id: JsValue, user: JsValue)
    requires !Get(user, "userId").Num?
    ensures !IsSelf(id, user)
  {
  }
}
