/**
 * Account handlers: registration, login with a rotating refresh token, token
 * refresh, logout, the signed-in user's profile and its update, and account
 * deletion. Password hashing and comparison (bcrypt) and token signing and
 * verification (the JWT helpers) are parameters: the hash is an input, a
 * comparison is a function of the password and the stored hash, and a signed
 * token is a function of its claims. `now` is the clock reading `Date.now()`.
 * Query texts are modelled with their whitespace runs collapsed.
 */
module AuthController {
  import opened Wrappers
  import opened Strings
  import opened JsValues
  import opened Http
  import opened Sql
  import opened Constants

  /** PostgreSQL's SQLSTATE for a unique violation. */
  const UniqueViolation: string := "23505"
  /** PostgreSQL's SQLSTATE for an undefined column. */
  const UndefinedColumn: string := "42703"

  // ---- register ----

  const RegisterRequired: string := "Name, email, phone, and password are required"

  predicate HasAccountFields(body: JsValue) {
    Truthy(Get(body, "name")) && Truthy(Get(body, "email")) && Truthy(Get(body, "phone")) && Truthy(Get(body, "password"))
  }

  /** `role || ROLES.FARMER` */
  function RequestedRole(body: JsValue): (r: JsValue)
    ensures !Truthy(Get(body, "role")) ==> r == Str(Farmer.Value())
    ensures Truthy(Get(body, "role")) ==> r == Get(body, "role")
  {
    OrStr(Get(body, "role"), Farmer.Value())
  }

  /** The INSERT's parameter list; `hash` is the bcrypt hash of the password. */
  function UserValues(body: JsValue, hash: string): seq<JsValue> {
    [Get(body, "name"), Get(body, "email"), Get(body, "phone"), Str(hash), RequestedRole(body),
     Get(body, "language_preference"), Get(body, "location")]
  }

  /**
   * bcryptjs refuses to hash or compare anything but a string: the call
   * rejects with "Illegal arguments", which the handler's catch turns into 500.
   */
  predicate Hashable(password: JsValue) {
    password.Str?
  }

  /** `register`; `hash` is bcrypt's hash of the password when it is a string. */
  function Register(body: JsValue, hash: string, insert: DbOutcome): (h: Handled)
    ensures !HasAccountFields(body) <==> h == Handled(ErrorReply(400, RegisterRequired), [Release])
    ensures HasAccountFields(body) && !ValidRole(RequestedRole(body)) <==> h == Handled(ErrorReply(400, "Invalid role"), [Release])
    ensures HasAccountFields(body) && ValidRole(RequestedRole(body)) && !Hashable(Get(body, "password")) <==>
      h == Handled(ErrorReply(500, "Failed to register user"), [Release])
    ensures HasInsert(h.trace) <==> HasAccountFields(body) && ValidRole(RequestedRole(body)) && Hashable(Get(body, "password"))
    ensures HasInsert(h.trace) ==> h.trace == [Insert("users", UserValues(body, hash)), Release]
    ensures h.reply.status == 201 <==> HasInsert(h.trace) && insert.Rows?
    ensures h.reply.status == 409 <==> HasInsert(h.trace) && insert.DbFault? && insert.code == UniqueViolation
  {
    if !HasAccountFields(body) then Handled(ErrorReply(400, RegisterRequired), [Release])
    else if !ValidRole(RequestedRole(body)) then Handled(ErrorReply(400, "Invalid role"), [Release])
    else if !Hashable(Get(body, "password")) then Handled(ErrorReply(500, "Failed to register user"), [Release])
    else
      var trace := [Insert("users", UserValues(body, hash)), Release];
      assert trace[0].Insert?;
      match insert
      case DbFault(code, _) =>
        if code == UniqueViolation then Handled(ErrorReply(409, "Email or phone already exists"), trace)
        else Handled(ErrorReply(500, "Failed to register user"), trace)
      case Rows(rows) => Handled(MessageDataReply(201, "User registered successfully", FirstRow(rows)), trace)
  }

  /**
   * A registration without a role stores `farmer`; only `farmer` and `admin`
   * are accepted when one is given, and then only a text password reaches
   * the INSERT.
   */
  lemma RegisterRole(body: JsValue, hash: string, insert: DbOutcome)
    requires HasAccountFields(body)
    ensures !Truthy(Get(body, "role")) && Get(body, "password").Str? ==>
      Register(body, hash, insert).trace[0] == Insert("users", UserValues(body, hash)) && UserValues(body, hash)[4] == Str("farmer")
    ensures Truthy(Get(body, "role")) ==>
      (HasInsert(Register(body, hash, insert).trace) <==>
        Get(body, "role") in {Str("farmer"), Str("admin")} && Get(body, "password").Str?)
  {
    ValidRoleExactly(RequestedRole(body));
  }

  /** A numeric password such as `123` is truthy but cannot be hashed: 500 and no INSERT. */
  lemma NumericPasswordRefused(body: JsValue, hash: string, insert: DbOutcome)
    requires HasAccountFields(body) && ValidRole(RequestedRole(body)) && Get(body, "password").Num?
    ensures Register(body, hash, insert) == Handled(ErrorReply(500, "Failed to register user"), [Release])
  {
  }

  // ---- login ----

  const LoginRequired: string := "Email and password are required"
  const BadCredentials: string := "Invalid credentials"
  const UserByEmail: string := "SELECT * FROM users WHERE email = $1"

  /** Seven days in milliseconds. */
  const RefreshLifetime: int := 7 * 24 * 60 * 60 * 1000

  /** The expiry stored with a refresh token, as epoch milliseconds. */
  function ExpiresAt(now: int): (t: int)
    ensures t - now == 604800000
  {
    now + RefreshLifetime
  }

  /** The claims of an access token. */
  function AccessClaims(user: JsValue): JsValue {
    Obj([Field("userId", Get(user, "id")), Field("email", Get(user, "email")), Field("role", Get(user, "role"))])
  }

  /** The claims of a refresh token. */
  function RefreshClaims(user: JsValue): JsValue {
    Obj([Field("userId", Get(user, "id"))])
  }

  /** The user as the login reply shows it. */
  function PublicUser(user: JsValue): JsValue {
    Obj([Field("id", Get(user, "id")), Field("name", Get(user, "name")), Field("email", Get(user, "email")),
         Field("phone", Get(user, "phone")), Field("role", Get(user, "role")),
         Field("language_preference", Get(user, "language_preference")), Field("location", Get(user, "location"))])
  }

  function LoginData(user: JsValue, access: string, refresh: string): JsValue {
    Obj([Field("user", PublicUser(user)), Field("accessToken", Str(access)), Field("refreshToken", Str(refresh))])
  }

  /**
   * `login`. `users` is the outcome of the lookup by email, `matches` is
   * bcrypt's comparison of a text password with a text hash, `sign` and
   * `signRefresh` sign claims, `store` is the outcome of storing the refresh
   * token. A password or stored hash that is not a text makes the comparison
   * reject, and the handler answers 500.
   */
  function Login(body: JsValue, users: DbOutcome, matches: (string, string) -> bool,
                 sign: JsValue -> string, signRefresh: JsValue -> string, now: int, store: DbOutcome): (h: Handled)
    ensures !Truthy(Get(body, "email")) || !Truthy(Get(body, "password")) <==> h == Handled(ErrorReply(400, LoginRequired), [Release])
    ensures HasInsert(h.trace) <==>
      (Truthy(Get(body, "email")) && Truthy(Get(body, "password")) && users.Rows? && |users.rows| > 0 &&
       Hashable(Get(body, "password")) && Hashable(Get(users.rows[0], "password_hash")) &&
       matches(Get(body, "password").s, Get(users.rows[0], "password_hash").s))
    ensures h.reply.status == 200 <==> HasInsert(h.trace) && store.Rows?
    ensures h.reply.status in {200, 400, 401, 500}
  {
    var email, password := Get(body, "email"), Get(body, "password");
    if !Truthy(email) || !Truthy(password) then Handled(ErrorReply(400, LoginRequired), [Release])
    else
      var lookup := Query(UserByEmail, [Val(email)]);
      match users
      case DbFault(_, _) => Handled(ErrorReply(500, "Failed to login"), [lookup, Release])
      case Rows(rows) =>
        if |rows| == 0 then Handled(ErrorReply(401, BadCredentials), [lookup, Release])
        else
          var user := rows[0];
          var stored := Get(user, "password_hash");
          if !Hashable(password) || !Hashable(stored) then Handled(ErrorReply(500, "Failed to login"), [lookup, Release])
          else if !matches(password.s, stored.s) then Handled(ErrorReply(401, BadCredentials), [lookup, Release])
          else
            var refresh := signRefresh(RefreshClaims(user));
            var trace := [lookup, Insert("refresh_tokens", [Get(user, "id"), Str(refresh), Num(ExpiresAt(now))]), Release];
            assert trace[1].Insert?;
            match store
            case DbFault(_, _) => Handled(ErrorReply(500, "Failed to login"), trace)
            case Rows(_) =>
              Handled(MessageDataReply(200, "Login successful", LoginData(user, sign(AccessClaims(user)), refresh)), trace)
  }

  /** A password that is not a text never reaches the comparison: 500 after the lookup, no token stored. */
  lemma LoginRefusesNonTextPassword(body: JsValue, user: JsValue, matches: (string, string) -> bool,
                                    sign: JsValue -> string, signRefresh: JsValue -> string, now: int, store: DbOutcome)
    requires Truthy(Get(body, "email")) && Truthy(Get(body, "password")) && !Get(body, "password").Str?
    ensures Login(body, Rows([user]), matches, sign, signRefresh, now, store) ==
      Handled(ErrorReply(500, "Failed to login"), [Query(UserByEmail, [Val(Get(body, "email"))]), Release])
  {
  }

  /**
   * An unknown email and a wrong password are told apart by nothing: the
   * same 401 reply after the same single lookup.
   */
  lemma LoginIndistinguishable(body: JsValue, user: JsValue, matches: (string, string) -> bool,
                               sign: JsValue -> string, signRefresh: JsValue -> string, now: int, store: DbOutcome)
    requires Truthy(Get(body, "email")) && Truthy(Get(body, "password"))
    requires Get(body, "password").Str? && Get(user, "password_hash").Str?
    requires !matches(Get(body, "password").s, Get(user, "password_hash").s)
    ensures var unknown := Login(body, Rows([]), matches, sign, signRefresh, now, store);
      var wrong := Login(body, Rows([user]), matches, sign, signRefresh, now, store);
      unknown == wrong && unknown.reply == ErrorReply(401, BadCredentials)
  {
  }

  /**
   * A successful login stores a refresh token for the user that expires seven
   * days later, and replies with it, an access token carrying the user's id,
   * email and role, and the user without the password hash.
   */
  lemma LoginIssuesTokens(body: JsValue, user: JsValue, matches: (string, string) -> bool,
                          sign: JsValue -> string, signRefresh: JsValue -> string, now: int, store: DbOutcome)
    requires Truthy(Get(body, "email")) && Truthy(Get(body, "password"))
    requires Get(body, "password").Str? && Get(user, "password_hash").Str?
    requires matches(Get(body, "password").s, Get(user, "password_hash").s) && store.Rows?
    ensures var h := Login(body, Rows([user]), matches, sign, signRefresh, now, store);
      var refresh := signRefresh(Obj([Field("userId", Get(user, "id"))]));
      h.reply.status == 200 &&
      h.trace[1] == Insert("refresh_tokens", [Get(user, "id"), Str(refresh), Num(now + 604800000)]) &&
      Get(Data(h.reply), "refreshToken") == Str(refresh) &&
      Get(Data(h.reply), "accessToken") == Str(sign(AccessClaims(user))) &&
      Get(Get(Data(h.reply), "user"), "password_hash") == Undefined
  {
    var access, refresh := sign(AccessClaims(user)), signRefresh(RefreshClaims(user));
    LoginSucceeds(body, user, matches, sign, signRefresh, now, store);
    var data := LoginData(user, access, refresh);
    LookupAt([Field("success", Bool(true)), Field("message", Str("Login successful")), Field("data", data)], 2, "data");
    LoginDataFields(user, access, refresh);
  }

  /** The reply and trace of a login whose every step succeeds. */
  lemma LoginSucceeds(body: JsValue, user: JsValue, matches: (string, string) -> bool,
                      sign: JsValue -> string, signRefresh: JsValue -> string, now: int, store: DbOutcome)
    requires Truthy(Get(body, "email")) && Truthy(Get(body, "password"))
    requires Get(body, "password").Str? && Get(user, "password_hash").Str?
    requires matches(Get(body, "password").s, Get(user, "password_hash").s) && store.Rows?
    ensures var refresh := signRefresh(RefreshClaims(user));
      Login(body, Rows([user]), matches, sign, signRefresh, now, store) ==
      Handled(MessageDataReply(200, "Login successful", LoginData(user, sign(AccessClaims(user)), refresh)),
              [Query(UserByEmail, [Val(Get(body, "email"))]), Insert("refresh_tokens", [Get(user, "id"), Str(refresh), Num(ExpiresAt(now))]), Release])
  {
  }

  /** The login data carries both tokens and the user without its password hash. */
  lemma LoginDataFields(user: JsValue, access: string, refresh: string)
    ensures Get(LoginData(user, access, refresh), "refreshToken") == Str(refresh)
    ensures Get(LoginData(user, access, refresh), "accessToken") == Str(access)
    ensures Get(Get(LoginData(user, access, refresh), "user"), "password_hash") == Undefined
  {
    var fs := [Field("user", PublicUser(user)), Field("accessToken", Str(access)), Field("refreshToken", Str(refresh))];
    LookupAt(fs, 2, "refreshToken");
    LookupAt(fs, 1, "accessToken");
    LookupAt(fs, 0, "user");
    PublicUserHidesHash(user);
  }

  /** The user shown after login has no `password_hash`. */
  lemma PublicUserHidesHash(user: JsValue)
    ensures Get(PublicUser(user), "password_hash") == Undefined
  {
    var fs := [Field("id", Get(user, "id")), Field("name", Get(user, "name")), Field("email", Get(user, "email")),
               Field("phone", Get(user, "phone")), Field("role", Get(user, "role")),
               Field("language_preference", Get(user, "language_preference")), Field("location", Get(user, "location"))];
    assert forall i :: 0 <= i < |fs| ==> fs[i].key != "password_hash";
  }

  // ---- refreshToken ----

  const StoredToken: string := "SELECT * FROM refresh_tokens WHERE token = $1 AND user_id = $2 AND expires_at > NOW()"
  const UserById: string := "SELECT id, email, role FROM users WHERE id = $1"

  /**
   * `refreshToken`. `decoded` is what the token verifier returned (`null`
   * for a bad or expired signature), `stored` the outcome of the lookup of
   * the unexpired stored token, `users` that of the user lookup.
   */
  function Refresh(body: JsValue, decoded: JsValue, stored: DbOutcome, users: DbOutcome, sign: JsValue -> string): (h: Handled)
    ensures !Truthy(Get(body, "refreshToken")) <==> h == Handled(ErrorReply(400, "Refresh token is required"), [Release])
    ensures Truthy(Get(body, "refreshToken")) && !Truthy(decoded) <==>
      h == Handled(ErrorReply(401, "Invalid or expired refresh token"), [Release])
    ensures h.reply.status == 200 ==>
      stored.Rows? && stored.rows != [] && users.Rows? && users.rows != [] &&
      h.reply == DataReply(200, Obj([Field("accessToken", Str(sign(AccessClaims(users.rows[0]))))]))
  {
    var token := Get(body, "refreshToken");
    var failed := ErrorReply(500, "Failed to refresh token");
    if !Truthy(token) then Handled(ErrorReply(400, "Refresh token is required"), [Release])
    else if !Truthy(decoded) then Handled(ErrorReply(401, "Invalid or expired refresh token"), [Release])
    else
      var userId := Get(decoded, "userId");
      var check := Query(StoredToken, [Val(token), Val(userId)]);
      match stored
      case DbFault(_, _) => Handled(failed, [check, Release])
      case Rows(tokens) =>
        if |tokens| == 0 then Handled(ErrorReply(401, "Invalid refresh token"), [check, Release])
        else
          var trace := [check, Query(UserById, [Val(userId)]), Release];
          match users
          case DbFault(_, _) => Handled(failed, trace)
          case Rows(rows) =>
            // `user.id` on a missing row throws and ends in the catch block
            match Member(FirstRow(rows), "id")
            case Failure(_) => Handled(failed, trace)
            case Success(_) => Handled(DataReply(200, Obj([Field("accessToken", Str(sign(AccessClaims(rows[0]))))])), trace)
  }

  /**
   * A token is refreshed only when it is stored for the user id it carries
   * and unexpired: an unknown or expired token gives 401 after the lookup, and
   * a user deleted since gives the handler's 500 instead of a token.
   */
  lemma RefreshGuards(body: JsValue, decoded: JsValue, users: DbOutcome, sign: JsValue -> string)
    requires Truthy(Get(body, "refreshToken")) && Truthy(decoded)
    ensures var h := Refresh(body, decoded, Rows([]), users, sign);
      h == Handled(ErrorReply(401, "Invalid refresh token"),
                   [Query(StoredToken, [Val(Get(body, "refreshToken")), Val(Get(decoded, "userId"))]), Release])
    ensures forall t: JsValue {:trigger Rows([t])} ::
      Refresh(body, decoded, Rows([t]), Rows([]), sign).reply == ErrorReply(500, "Failed to refresh token")
  {
  }

  // ---- logout ----

  const DeleteToken: string := "DELETE FROM refresh_tokens WHERE token = $1"

  /** `logout`: the token, when one is sent, is deleted from the store. */
  function Logout(body: JsValue, result: DbOutcome): (h: Handled)
    ensures !Truthy(Get(body, "refreshToken")) ==> h == Handled(MessageReply(200, "Logged out successfully"), [Release])
    ensures Truthy(Get(body, "refreshToken")) ==> h.trace == [Query(DeleteToken, [Val(Get(body, "refreshToken"))]), Release]
    ensures h.reply.status == 200 <==> !Truthy(Get(body, "refreshToken")) || result.Rows?
  {
    var token := Get(body, "refreshToken");
    if !Truthy(token) then Handled(MessageReply(200, "Logged out successfully"), [Release])
    else
      var trace := [Query(DeleteToken, [Val(token)]), Release];
      match result
      case DbFault(_, _) => Handled(ErrorReply(500, "Failed to logout"), trace)
      case Rows(_) => Handled(MessageReply(200, "Logged out successfully"), trace)
  }

  /** Logging out an unknown token succeeds like logging out a stored one. */
  lemma LogoutAlwaysSucceeds(body: JsValue, deleted: seq<JsValue>)
    ensures Logout(body, Rows(deleted)).reply == MessageReply(200, "Logged out successfully")
  {
  }

  // ---- getMe ----

  const DefaultAvatar: string := "farmer1"
  const ProfileSql: string :=
    "SELECT id, name, email, phone, role, language_preference, location, avatar, created_at FROM users WHERE id = $1"
  const ProfileSqlPlain: string :=
    "SELECT id, name, email, phone, role, language_preference, location, created_at FROM users WHERE id = $1"

  /** The first query failed because the `avatar` column does not exist, so the handler retries without it. */
  predicate MissingAvatarColumn(first: DbOutcome) {
    first.DbFault? && first.code == UndefinedColumn
  }

  /** The rows the profile lookup ends with, `None` when the lookup failed. */
  function Selected(first: DbOutcome, retry: DbOutcome): Option<seq<JsValue>> {
    if first.Rows? then Some(first.rows)
    else if MissingAvatarColumn(first) && retry.Rows? then Some(retry.rows)
    else None
  }

  /**
   * `getMe`. `first` is the outcome of the lookup with the avatar column,
   * `retry` that of the lookup without it. The first row is updated in place
   * with the default avatar.
   */
  method GetMe(user: JsValue, first: DbOutcome, retry: DbOutcome) returns (h: Handled)
    ensures var id := [Val(Get(user, "userId"))];
      h.trace == if MissingAvatarColumn(first) then [Query(ProfileSql, id), Query(ProfileSqlPlain, id), Release]
                 else [Query(ProfileSql, id), Release]
    ensures h.reply.status == 500 <==> Selected(first, retry).None?
    ensures h.reply.status == 404 <==> Selected(first, retry) == Some([])
    ensures h.reply.status == 200 <==> Selected(first, retry).Some? && Selected(first, retry).value != []
    ensures h.reply.status == 200 && Selected(first, retry).value[0].Obj? ==>
      var row := Selected(first, retry).value[0];
      Truthy(Get(Data(h.reply), "avatar")) &&
      Get(Data(h.reply), "avatar") ==
        (if first.Rows? && Truthy(Get(row, "avatar")) then Get(row, "avatar") else Str(DefaultAvatar)) &&
      forall k :: k != "avatar" ==> Get(Data(h.reply), k) == Get(row, k)
  {
    var id := [Val(Get(user, "userId"))];
    var trace := [Query(ProfileSql, id)];
    var rows: seq<JsValue>;
    match first {
      case Rows(found) =>
        rows := found;
      case DbFault(code, _) =>
        if code != UndefinedColumn {
          h := Handled(ErrorReply(500, "Failed to get user profile"), trace + [Release]);
          return;
        }
        trace := trace + [Query(ProfileSqlPlain, id)];
        match retry {
          case DbFault(_, _) =>
            h := Handled(ErrorReply(500, "Failed to get user profile"), trace + [Release]);
            return;
          case Rows(found) =>
            rows := found;
        }
        if |rows| > 0 {
          rows := rows[0 := SetProperty(rows[0], "avatar", Str(DefaultAvatar))];
        }
    }
    if |rows| == 0 {
      h := Handled(ErrorReply(404, "User not found"), trace + [Release]);
      return;
    }
    if !Truthy(Get(rows[0], "avatar")) {
      rows := rows[0 := SetProperty(rows[0], "avatar", Str(DefaultAvatar))];
    }
    h := Handled(DataReply(200, rows[0]), trace + [Release]);
    DataReplyFields(200, rows[0]);
  }

  // ---- updateProfile ----

  /** The columns a profile update may change, in the order of their placeholders. */
  const ProfileColumns: seq<string> := ["name", "phone", "language_preference", "location", "avatar"]

  /** ` <column> = COALESCE($<k>, <column>),` */
  function Assignment(column: string, k: nat): (r: string)
    ensures |r| > 0 && r[0] == ' '
  {
    " " + column + " = COALESCE($" + NatToString(k) + ", " + column + "),"
  }

  function Assignments(columns: seq<string>, k: nat): (r: string)
    ensures r == [] || r[0] == ' '
  {
    if columns == [] then "" else Assignment(columns[0], k) + Assignments(columns[1..], k + 1)
  }

  const UpdateHead: string := "UPDATE users SET"
  const UpdateStamp: string := " updated_at = CURRENT_TIMESTAMP"
  const UpdateWhere: string := " WHERE id = "
  const ReturnIds: string := " RETURNING id, name, email, phone"
  const ReturnRest: string := ", role, language_preference"
  const ReturnLast: string := ", location, avatar"
  const UpdateSql: string :=
    UpdateHead + Assignments(ProfileColumns, 1) + (UpdateStamp + UpdateWhere + "$6") + (ReturnIds + ReturnRest + ReturnLast)
  const AddAvatarColumn: string := "ALTER TABLE users ADD COLUMN IF NOT EXISTS avatar VARCHAR(50) DEFAULT 'farmer1'"

  function FieldValues(body: JsValue, columns: seq<string>): (r: seq<JsValue>)
    ensures |r| == |columns|
    ensures forall i :: 0 <= i < |columns| ==> r[i] == Get(body, columns[i])
  {
    if columns == [] then [] else [Get(body, columns[0])] + FieldValues(body, columns[1..])
  }

  /** The update's parameters: the five profile fields of the body, then the user's id. */
  function UpdateParams(body: JsValue, user: JsValue): seq<Param> {
    ValsOf(FieldValues(body, ProfileColumns) + [Get(user, "userId")])
  }

  /**
   * `updateProfile`. `first` is the outcome of the update; when it fails on
   * the missing avatar column, `alter` is the outcome of adding the column
   * and `retry` that of the same update issued again.
   */
  method UpdateProfile(body: JsValue, user: JsValue, first: DbOutcome, alter: DbOutcome, retry: DbOutcome) returns (h: Handled)
    ensures var update := Query(UpdateSql, UpdateParams(body, user));
      h.trace == if !MissingAvatarColumn(first) then [update, Release]
                 else if alter.DbFault? then [update, Query(AddAvatarColumn, []), Release]
                 else [update, Query(AddAvatarColumn, []), update, Release]
    ensures h.reply.status == 200 <==> first.Rows? || (MissingAvatarColumn(first) && alter.Rows? && retry.Rows?)
    ensures h.reply.status == 200 ==>
      h.reply == MessageDataReply(200, "Profile updated successfully", FirstRow(if first.Rows? then first.rows else retry.rows))
    ensures h.reply.status != 200 ==> h.reply == ErrorReply(500, "Failed to update profile")
  {
    var update := Query(UpdateSql, UpdateParams(body, user));
    var failed := ErrorReply(500, "Failed to update profile");
    var result: seq<JsValue>;
    match first {
      case Rows(rows) =>
        result := rows;
        h := Handled(MessageDataReply(200, "Profile updated successfully", FirstRow(result)), [update, Release]);
      case DbFault(code, _) =>
        if code != UndefinedColumn {
          h := Handled(failed, [update, Release]);
          return;
        }
        if alter.DbFault? {
          h := Handled(failed, [update, Query(AddAvatarColumn, []), Release]);
          return;
        }
        var trace := [update, Query(AddAvatarColumn, []), update, Release];
        match retry {
          case DbFault(_, _) =>
            h := Handled(failed, trace);
          case Rows(rows) =>
            result := rows;
            h := Handled(MessageDataReply(200, "Profile updated successfully", FirstRow(result)), trace);
        }
    }
  }

  /**
   * The row the UPDATE leaves: each listed column takes `COALESCE($i, column)`
   * with the right-hand side read from the row as it was. A body field
   * that is `undefined` is bound as NULL. `ProfileRow` adds the `updated_at` stamp.
   */
  function Updated(before: JsValue, acc: JsValue, columns: seq<string>, values: seq<JsValue>): JsValue
    requires |values| == |columns|
    decreases |columns|
  {
    if columns == [] then acc
    else Updated(before, SetProperty(acc, columns[0], Coalesce(values[0], Get(before, columns[0]))), columns[1..], values[1..])
  }

  /** Each column gets its parameter unless that is null, and keeps its stored value then; other columns are untouched. */
  lemma {:induction false} UpdatedColumns(before: JsValue, acc: JsValue, columns: seq<string>, values: seq<JsValue>)
    requires |values| == |columns| && Distinct(columns) && acc.Obj?
    ensures Updated(before, acc, columns, values).Obj?
    ensures forall i :: 0 <= i < |columns| ==> Get(Updated(before, acc, columns, values), columns[i]) == Coalesce(values[i], Get(before, columns[i]))
    ensures forall k :: k !in columns ==> Get(Updated(before, acc, columns, values), k) == Get(acc, k)
    decreases |columns|
  {
    if columns != [] {
      var next := SetProperty(acc, columns[0], Coalesce(values[0], Get(before, columns[0])));
      UpdatedColumns(before, next, columns[1..], values[1..]);
      var r := Updated(before, acc, columns, values);
      forall i | 0 <= i < |columns|
        ensures Get(r, columns[i]) == Coalesce(values[i], Get(before, columns[i]))
      {
        if i > 0 {
          assert columns[1..][i - 1] == columns[i];
        } else {
          assert columns[0] !in columns[1..] by {
            forall j | 0 <= j < |columns[1..]| ensures columns[1..][j] != columns[0] {
              assert columns[1..][j] == columns[j + 1];
            }
          }
        }
      }
      forall k | k !in columns ensures Get(r, k) == Get(acc, k) {
        assert k !in columns[1..] by {
          forall j | 0 <= j < |columns[1..]| ensures columns[1..][j] != k {
            assert columns[1..][j] == columns[j + 1];
          }
        }
      }
    }
  }

  /** The user row the profile UPDATE leaves; `now` is the database's `CURRENT_TIMESTAMP`. */
  function ProfileRow(before: JsValue, body: JsValue, now: JsValue): JsValue {
    SetProperty(Updated(before, before, ProfileColumns, FieldValues(body, ProfileColumns)), StampColumn, now)
  }

  /**
   * A profile update keeps the stored value of every field the body leaves
   * out or sends as null, takes every other sent value, stamps `updated_at`
   * and touches no other column (email, role, ..).
   */
  lemma ProfileUpdateKeepsNulls(before: JsValue, body: JsValue, now: JsValue)
    requires before.Obj?
    ensures var r := ProfileRow(before, body, now);
      (forall i :: 0 <= i < |ProfileColumns| ==>
         Get(r, ProfileColumns[i]) == if IsNullish(Get(body, ProfileColumns[i])) then Get(before, ProfileColumns[i]) else Get(body, ProfileColumns[i])) &&
      Get(r, StampColumn) == now &&
      (forall k :: k !in ProfileColumns && k != StampColumn ==> Get(r, k) == Get(before, k))
  {
    ProfileColumnsDistinct();
    StampedFromBody(before, body, ProfileColumns, now);
  }

  /** `UpdatedFromBody` with the `updated_at` stamp set after the listed columns. */
  lemma StampedFromBody(before: JsValue, body: JsValue, columns: seq<string>, now: JsValue)
    requires before.Obj? && Distinct(columns) && StampColumn !in columns
    ensures var r := SetProperty(Updated(before, before, columns, FieldValues(body, columns)), StampColumn, now);
      (forall i :: 0 <= i < |columns| ==>
         Get(r, columns[i]) == if IsNullish(Get(body, columns[i])) then Get(before, columns[i]) else Get(body, columns[i])) &&
      Get(r, StampColumn) == now &&
      (forall k :: k !in columns && k != StampColumn ==> Get(r, k) == Get(before, k))
  {
    UpdatedFromBody(before, body, columns);
    UpdatedColumns(before, before, columns, FieldValues(body, columns));
    var r := SetProperty(Updated(before, before, columns, FieldValues(body, columns)), StampColumn, now);
    forall i | 0 <= i < |columns| ensures Get(r, columns[i]) == Get(Updated(before, before, columns, FieldValues(body, columns)), columns[i]) {
      assert columns[i] != StampColumn;
    }
  }

  lemma UpdatedFromBody(before: JsValue, body: JsValue, columns: seq<string>)
    requires before.Obj? && Distinct(columns)
    ensures var r := Updated(before, before, columns, FieldValues(body, columns));
      (forall i :: 0 <= i < |columns| ==>
         Get(r, columns[i]) == if IsNullish(Get(body, columns[i])) then Get(before, columns[i]) else Get(body, columns[i])) &&
      (forall k :: k !in columns ==> Get(r, k) == Get(before, k))
  {
    UpdatedColumns(before, before, columns, FieldValues(body, columns));
  }

  /** The five profile columns are distinct, and the stamp is not one of them. */
  lemma ProfileColumnsDistinct()
    ensures Distinct(ProfileColumns) && StampColumn !in ProfileColumns
  {
  }

  lemma AssignmentPlaceholders(column: string, k: nat)
    requires NoMarker(column)
    ensures Placeholders(Assignment(column, k)) == [k]
  {
    var t1 := " " + column + " = COALESCE(";
    var t2 := ", " + column + "),";
    var p1 := t1 + "$" + NatToString(k);
    assert Assignment(column, k) == p1 + t2;
    TextThenMarker(t1, k);
    PlaceholdersConcat(p1, t2);
    PlaceholdersNone(t2);
  }

  /** The assignments use the consecutive placeholders k, k+1, .., k+|columns|-1. */
  lemma {:induction false} AssignmentsPlaceholders(columns: seq<string>, k: nat)
    requires forall i :: 0 <= i < |columns| ==> NoMarker(columns[i])
    ensures Placeholders(Assignments(columns, k)) == Range(k, k + |columns|)
  {
    if columns != [] {
      AssignmentPlaceholders(columns[0], k);
      AssignmentsPlaceholders(columns[1..], k + 1);
      PlaceholdersConcat(Assignment(columns[0], k), Assignments(columns[1..], k + 1));
    }
  }

  lemma UpdateTailPlaceholders()
    ensures Placeholders(UpdateStamp + UpdateWhere + "$6") == [6]
    ensures Placeholders(ReturnIds + ReturnRest + ReturnLast) == []
  {
    assert NoMarker(UpdateStamp) && NoMarker(UpdateWhere);
    NoMarkerConcat(UpdateStamp, UpdateWhere);
    DigitMarker(UpdateStamp + UpdateWhere, 6, "$6");
    assert NoMarker(ReturnIds) && NoMarker(ReturnRest) && NoMarker(ReturnLast);
    NoMarkerConcat(ReturnIds, ReturnRest);
    NoMarkerConcat(ReturnIds + ReturnRest, ReturnLast);
    PlaceholdersNone(ReturnIds + ReturnRest + ReturnLast);
  }

  /**
   * The statement's markers are $1..$6: $i is bound to the i-th profile column
   * of the body and guards that column's COALESCE, and $6 is the user's id.
   */
  lemma UpdatePlaceholders(body: JsValue, user: JsValue)
    ensures Placeholders(UpdateSql) == Range(1, 7)
    ensures |UpdateParams(body, user)| == 6 && UpdateParams(body, user)[5] == Val(Get(user, "userId"))
    ensures forall i :: 0 <= i < 5 ==> UpdateParams(body, user)[i] == Val(Get(body, ProfileColumns[i]))
  {
    UpdateSqlPlaceholders();
  }

  lemma UpdateSqlPlaceholders()
    ensures Placeholders(UpdateSql) == Range(1, 7)
  {
    var h := UpdateHead;
    var a := Assignments(ProfileColumns, 1);
    var w := UpdateStamp + UpdateWhere + "$6";
    var r := ReturnIds + ReturnRest + ReturnLast;
    calc {
      Placeholders(UpdateSql);
      Placeholders(h + a + w + r);
      { assert r[0] == ' '; PlaceholdersConcat(h + a + w, r); }
      Placeholders(h + a + w) + Placeholders(r);
      { assert w[0] == ' '; PlaceholdersConcat(h + a, w); }
      Placeholders(h + a) + Placeholders(w) + Placeholders(r);
      { PlaceholdersConcat(h, a); }
      Placeholders(h) + Placeholders(a) + Placeholders(w) + Placeholders(r);
      { assert NoMarker(h); PlaceholdersNone(h); ProfileAssignmentsPlaceholders(); UpdateTailPlaceholders(); }
      [] + Range(1, 6) + [6] + [];
      { RangeSnocSix(); }
      Range(1, 7);
    }
  }

  lemma RangeSnocSix()
    ensures [] + Range(1, 6) + [6] + [] == Range(1, 7)
  {
  }

  lemma ProfileAssignmentsPlaceholders()
    ensures Placeholders(Assignments(ProfileColumns, 1)) == Range(1, 6)
  {
    assert NoMarker("name") && NoMarker("phone") && NoMarker("language_preference") && NoMarker("location") && NoMarker("avatar");
    AssignmentsPlaceholders(ProfileColumns, 1);
  }

  // ---- deleteAccount ----

  const DeleteSelf: string := "DELETE FROM users WHERE id = $1"

  /** `deleteAccount`: succeeds whether or not a row was deleted. */
  function DeleteAccount(user: JsValue, result: DbOutcome): (h: Handled)
    ensures h.trace == [Query(DeleteSelf, [Val(Get(user, "userId"))]), Release]
    ensures h.reply.status == 200 <==> result.Rows?
    ensures result.Rows? ==> h.reply == MessageReply(200, "Account deleted successfully")
    ensures result.DbFault? ==> h.reply == ErrorReply(500, "Failed to delete account")
  {
    var trace := [Query(DeleteSelf, [Val(Get(user, "userId"))]), Release];
    match result
    case DbFault(_, _) => Handled(ErrorReply(500, "Failed to delete account"), trace)
    case Rows(_) => Handled(MessageReply(200, "Account deleted successfully"), trace)
  }
}
