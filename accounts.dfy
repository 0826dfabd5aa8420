/**
 * The account handlers (backend/internal/handlers/auth.go): the login
 * decision chain and the three updates of the signed-in user's row. The
 * bcrypt comparison, hashing, token signing and key generation are
 * parameters; a request body that does not bind (bad JSON or a missing
 * required field) is None. The log lines the handlers write are left out.
 */
module Accounts {
  import opened Wrappers
  import opened Auth

  datatype LoginRequest = LoginRequest(username: string, password: string)

  /** The login response: a token (models.TokenResponse) or an error status with its detail. */
  datatype LoginResponse =
    | TokenResponse(accessToken: string, tokenType: string)
    | Failure(status: int, detail: string)

  /** `binding:"required"`: both fields present and non-empty. */
  predicate Binds(req: Option<LoginRequest>) {
    req.Some? && req.value.username != "" && req.value.password != ""
  }

  /**
   * Login: 400 for a body that does not bind; 401 for an unknown name or a
   * wrong password (the same answer for both); 403 for a correct password on
   * a disabled account; 500 when signing fails; otherwise a bearer token.
   * `checkPassword(password, hash)` is bcrypt's comparison and `sign(username)`
   * GenerateToken.
   */
  function Login(req: Option<LoginRequest>, users: seq<User>, checkPassword: (string, string) -> bool,
                 sign: string -> Option<string>): (r: LoginResponse)
    ensures r.Failure? ==> r.status == 400 || r.status == 401 || r.status == 403 || r.status == 500
    ensures r.Failure? && r.status == 400 <==> !Binds(req)
    ensures r.TokenResponse? ==> r.tokenType == "bearer" && Binds(req)
    ensures r.TokenResponse? ==> var u := UserByName(users, req.value.username);
      u.Some? && u.value.isActive && checkPassword(req.value.password, u.value.hashedPassword)
  {
    if !Binds(req) then Failure(400, "无效的请求")
    else
      var u := UserByName(users, req.value.username);
      if u.None? || !checkPassword(req.value.password, u.value.hashedPassword) then Failure(401, "用户名或密码错误")
      else if !u.value.isActive then Failure(403, "账户已禁用")
      else
        var token := sign(u.value.username);
        if token.None? then Failure(500, "生成令牌失败")
        else TokenResponse(token.value, "bearer")
  }

  /**
   * A login succeeds exactly for a bound body naming an existing, active user
   * with the right password and a token that signs; the answer is then a
   * bearer token for that user.
   */
  lemma LoginSucceedsIff(req: Option<LoginRequest>, users: seq<User>, checkPassword: (string, string) -> bool,
                         sign: string -> Option<string>)
    ensures var r := Login(req, users, checkPassword, sign);
      var u := if req.Some? then UserByName(users, req.value.username) else None;
      (r.TokenResponse? <==> Binds(req) && u.Some? && checkPassword(req.value.password, u.value.hashedPassword) &&
                             u.value.isActive && sign(u.value.username).Some?) &&
      (r.TokenResponse? ==> r.tokenType == "bearer" && r == TokenResponse(sign(req.value.username).value, "bearer"))
  {
  }

  /**
   * An unknown name and a wrong password get the same 401 with the same
   * detail, so the answer does not tell which one it was.
   */
  lemma LoginHidesUnknownUsers(req: Option<LoginRequest>, users: seq<User>,
                               checkPassword: (string, string) -> bool, sign: string -> Option<string>)
    requires Binds(req)
    requires var u := UserByName(users, req.value.username);
      u.None? || !checkPassword(req.value.password, u.value.hashedPassword)
    ensures Login(req, users, checkPassword, sign) == Failure(401, "用户名或密码错误")
  {
  }

  /**
   * The password is checked before the active flag: a disabled account
   * answers 403 only to the right password, and 401 to any other.
   */
  lemma DisabledAccountNeedsPassword(req: Option<LoginRequest>, users: seq<User>,
                                     checkPassword: (string, string) -> bool, sign: string -> Option<string>)
    requires Binds(req)
    requires UserByName(users, req.value.username).Some?
    requires !UserByName(users, req.value.username).value.isActive
    ensures var ok := checkPassword(req.value.password, UserByName(users, req.value.username).value.hashedPassword);
      Login(req, users, checkPassword, sign) == if ok then Failure(403, "账户已禁用") else Failure(401, "用户名或密码错误")
  {
  }

  // ---------------------------------------------------------------------------
  // Updates of the signed-in user's row

  /** `UPDATE users SET ... WHERE id = ?`: every row with that id changed by `f`. */
  function UpdateWhere(users: seq<User>, id: int, f: User -> User): (r: seq<User>)
    ensures |r| == |users|
    ensures forall i :: 0 <= i < |users| ==> r[i] == if users[i].id == id then f(users[i]) else users[i]
  {
    seq(|users|, i requires 0 <= i < |users| => if users[i].id == id then f(users[i]) else users[i])
  }

  /** `SELECT COUNT(*) FROM users WHERE username = ? AND id != ?` is non-zero. */
  predicate NameTakenByOther(users: seq<User>, name: string, id: int) {
    exists i :: 0 <= i < |users| && users[i].username == name && users[i].id != id
  }

  /** Usernames are unique and so are ids (the table's UNIQUE and PRIMARY KEY constraints). */
  ghost predicate Unique(users: seq<User>) {
    forall i, j :: 0 <= i < |users| && 0 <= j < |users| && i != j ==>
      users[i].username != users[j].username && users[i].id != users[j].id
  }

  /** A rename that passed the duplicate check keeps usernames unique. */
  lemma RenameKeepsUnique(users: seq<User>, id: int, name: string)
    requires Unique(users)
    requires !NameTakenByOther(users, name, id)
    ensures Unique(UpdateWhere(users, id, (u: User) => u.(username := name)))
  {
    var r := UpdateWhere(users, id, (u: User) => u.(username := name));
    forall i, j | 0 <= i < |r| && 0 <= j < |r| && i != j
      ensures r[i].username != r[j].username && r[i].id != r[j].id
    {
      if users[i].id == id && users[j].id != id {
        assert users[j].username != name;
      } else if users[j].id == id && users[i].id != id {
        assert users[i].username != name;
      }
    }
  }

  datatype ChangePasswordRequest = ChangePasswordRequest(oldPassword: string, newPassword: string)

  class UserTable {
    /** The `users` rows, in table order. */
    var users: seq<User>

    constructor (initial: seq<User>)
      ensures users == initial
    {
      users := initial;
    }

    /**
     * ChangePassword: 400 for a body that does not bind or a wrong old
     * password, 500 when hashing fails; otherwise the row of `me` gets the new
     * hash. Nothing is written on any error.
     */
    method ChangePassword(me: User, req: Option<ChangePasswordRequest>, checkPassword: (string, string) -> bool,
                          hashed: Option<string>) returns (status: int)
      modifies this
      ensures status == 200 <==> req.Some? && req.value.oldPassword != "" && req.value.newPassword != "" &&
                                 checkPassword(req.value.oldPassword, me.hashedPassword) && hashed.Some?
      ensures status != 200 ==> users == old(users) && status in {400, 500}
      ensures status == 200 ==> users == UpdateWhere(old(users), me.id, (u: User) => u.(hashedPassword := hashed.value))
    {
      if req.None? || req.value.oldPassword == "" || req.value.newPassword == "" {
        return 400;
      }
      if !checkPassword(req.value.oldPassword, me.hashedPassword) {
        return 400;
      }
      if hashed.None? {
        return 500;
      }
      users := UpdateWhere(users, me.id, (u: User) => u.(hashedPassword := hashed.value));
      status := 200;
    }

    /**
     * ChangeUsername: 400 for a body that does not bind or a name another
     * user holds; keeping one's own name is allowed.
     */
    method ChangeUsername(me: User, req: Option<string>) returns (status: int)
      modifies this
      ensures status == 200 <==> req.Some? && req.value != "" && !NameTakenByOther(old(users), req.value, me.id)
      ensures status != 200 ==> status == 400 && users == old(users)
      ensures status == 200 ==> users == UpdateWhere(old(users), me.id, (u: User) => u.(username := req.value))
    {
      if req.None? || req.value == "" {
        return 400;
      }
      var count := 0;
      var i := 0;
      while i < |users|
        invariant 0 <= i <= |users|
        invariant count == 0 <==> forall j :: 0 <= j < i ==> !(users[j].username == req.value && users[j].id != me.id)
      {
        if users[i].username == req.value && users[i].id != me.id {
          count := count + 1;
        }
        i := i + 1;
      }
      if count > 0 {
        return 400;
      }
      users := UpdateWhere(users, me.id, (u: User) => u.(username := req.value));
      status := 200;
    }

    /** RegenerateAPIKey: the row of `me` gets `newKey` (auth.GenerateAPIKey's output), which is returned. */
    method RegenerateAPIKey(me: User, newKey: string) returns (status: int, apiKey: string)
      modifies this
      ensures status == 200 && apiKey == newKey
      ensures users == UpdateWhere(old(users), me.id, (u: User) => u.(apiKey := newKey))
    {
      users := UpdateWhere(users, me.id, (u: User) => u.(apiKey := newKey));
      return 200, newKey;
    }
  }

  /** After a successful rename the user is found under the new name and no longer under the old one. */
  lemma RenamedUserFound(users: seq<User>, me: User, name: string)
    requires Unique(users) && me in users && name != me.username
    requires !NameTakenByOther(users, name, me.id)
    ensures var r := UpdateWhere(users, me.id, (u: User) => u.(username := name));
      UserByName(r, name) == Some(me.(username := name)) && UserByName(r, me.username).None?
  {
    var r := UpdateWhere(users, me.id, (u: User) => u.(username := name));
    var k :| 0 <= k < |users| && users[k] == me;
    assert r[k] == me.(username := name);
    RenameKeepsUnique(users, me.id, name);
    FoundInUnique(r, k);
    forall i | 0 <= i < |r| ensures r[i].username != me.username {
      if i != k {
        assert users[i].id != me.id;
      }
    }
  }

  /** In a table with unique names, lookup by name finds the row holding it. */
  lemma FoundInUnique(users: seq<User>, k: int)
    requires Unique(users) && 0 <= k < |users|
    ensures UserByName(users, users[k].username) == Some(users[k])
  {
    var u := UserByName(users, users[k].username);
    var j :| 0 <= j < |users| && users[j] == u.value;
    assert users[j].username == users[k].username;
  }
}
