/**
 * The authentication middleware (backend/internal/auth/auth.go): the JWT
 * chain for the admin console, the API-key chain for the OpenAI-compatible
 * routes and the admin gate. The `users` table is a sequence of rows in
 * table order; signing, signature checking, bcrypt and random key generation
 * are outside the model: the JWT library's verdict on a token is a
 * parameter (`decode`), None when it rejects the token.
 */
module Auth {
  import opened Wrappers
  import opened Text
  import opened Json

  /** models.User. */
  datatype User = User(id: int, username: string, hashedPassword: string, apiKey: string,
                       isAdmin: bool, isActive: bool)

  const BearerPrefix := "Bearer "

  /** Seven days, in seconds: the lifetime of a console token. */
  const TokenLifetime: int := 7 * 24 * 3600

  // ---------------------------------------------------------------------------
  // Tokens

  /** The claims GenerateToken signs: the username and the expiry in Unix seconds. */
  function TokenClaims(username: string, issuedAt: int): (claims: map<string, Json>)
    ensures claims.Keys == {"sub", "exp"}
    ensures claims["sub"] == Str(username)
    ensures claims["exp"] == Num(issuedAt + 604800)
  {
    map["sub" := Str(username), "exp" := Num(issuedAt + TokenLifetime)]
  }

  /**
   * ParseToken: given the library's verdict (the claims of a well-signed,
   * valid token, or None), the `sub` claim when it is a string.
   */
  function ParseToken(decoded: Option<map<string, Json>>): (sub: Option<string>)
    ensures sub.Some? <==> decoded.Some? && StringField(decoded.value, "sub").Some?
    ensures sub.Some? ==> decoded.value["sub"] == Str(sub.value)
  {
    if decoded.None? then None else StringField(decoded.value, "sub")
  }

  /** A token the library accepts gives back the username it was generated for. */
  lemma GeneratedTokenParses(username: string, issuedAt: int)
    ensures ParseToken(Some(TokenClaims(username, issuedAt))) == Some(username)
  {
  }

  // ---------------------------------------------------------------------------
  // User lookups

  /** GetUserByUsername: the first row with that name, active or not. */
  function UserByName(users: seq<User>, username: string): (u: Option<User>)
    ensures u.Some? ==> u.value in users && u.value.username == username
    ensures u.None? <==> forall i :: 0 <= i < |users| ==> users[i].username != username
    decreases |users|
  {
    if users == [] then None
    else if users[0].username == username then Some(users[0])
    else UserByName(users[1..], username)
  }

  /** GetUserByAPIKey: the first ACTIVE row holding that key. */
  function UserByApiKey(users: seq<User>, apiKey: string): (u: Option<User>)
    ensures u.Some? ==> u.value in users && u.value.apiKey == apiKey && u.value.isActive
    ensures u.None? <==> forall i :: 0 <= i < |users| ==> !(users[i].apiKey == apiKey && users[i].isActive)
    decreases |users|
  {
    if users == [] then None
    else if users[0].apiKey == apiKey && users[0].isActive then Some(users[0])
    else UserByApiKey(users[1..], apiKey)
  }

  // ---------------------------------------------------------------------------
  // Middleware decisions

  /** What a middleware does: continue with a user in the context, or abort with a status. */
  datatype Verdict = Continue(user: User) | Abort(status: int, detail: string)

  /** The token carried by an Authorization header: one leading "Bearer " removed. */
  function Credential(header: string): (token: string)
    ensures HasPrefix(header, BearerPrefix) ==> header == BearerPrefix + token
    ensures !HasPrefix(header, BearerPrefix) ==> token == header
  {
    TrimPrefix(header, BearerPrefix)
  }

  /** JWTAuth: header present, token parses to a name, the user exists and is active. */
  function JwtAuth(header: string, decode: string -> Option<map<string, Json>>, users: seq<User>): (v: Verdict)
    ensures header == "" ==> v.Abort?
    ensures v.Abort? ==> v.status == 401
    ensures v.Continue? ==> v.user in users && v.user.isActive
  {
    if header == "" then Abort(401, "缺少认证凭据")
    else
      var sub := ParseToken(decode(Credential(header)));
      if sub.None? then Abort(401, "无效的认证凭据")
      else
        var u := UserByName(users, sub.value);
        if u.None? || !u.value.isActive then Abort(401, "用户不存在或已禁用")
        else Continue(u.value)
  }

  /**
   * JWTAuth lets a request through exactly when the header is non-empty, the
   * token's `sub` names a user and that user is active; every refusal is 401.
   */
  lemma JwtAuthDecision(header: string, decode: string -> Option<map<string, Json>>, users: seq<User>)
    ensures var v := JwtAuth(header, decode, users);
      var sub := ParseToken(decode(Credential(header)));
      (v.Continue? <==> header != "" && sub.Some? && UserByName(users, sub.value).Some? &&
                        UserByName(users, sub.value).value.isActive) &&
      (v.Continue? ==> v.user.username == sub.value && v.user.isActive && v.user in users) &&
      (v.Abort? ==> v.status == 401)
  {
  }

  /** A freshly generated token for an active user gets through JWTAuth. */
  lemma GeneratedTokenAdmitted(u: User, issuedAt: int, header: string,
                               decode: string -> Option<map<string, Json>>, users: seq<User>)
    requires header == BearerPrefix + "t" || header == "t"
    requires decode("t") == Some(TokenClaims(u.username, issuedAt))
    requires UserByName(users, u.username) == Some(u) && u.isActive
    ensures JwtAuth(header, decode, users) == Continue(u)
  {
    assert Credential(header) == "t" by {
      if header == BearerPrefix + "t" {
        assert HasPrefix(header, BearerPrefix);
      } else {
        assert !HasPrefix(header, BearerPrefix);
      }
    }
  }

  /** APIKeyAuth: header present and the key belongs to an active user. */
  function ApiKeyAuth(header: string, users: seq<User>): (v: Verdict)
    ensures v.Continue? <==> header != "" && UserByApiKey(users, Credential(header)).Some?
    ensures v.Continue? ==> v.user.apiKey == Credential(header) && v.user.isActive && v.user in users
    ensures v.Abort? ==> v.status == 401
  {
    if header == "" then Abort(401, "缺少 API Key")
    else
      var u := UserByApiKey(users, Credential(header));
      if u.None? then Abort(401, "无效的 API Key") else Continue(u.value)
  }

  /** AdminRequired: 401 without a user in the context, 403 for a non-admin. */
  function AdminRequired(user: Option<User>): (v: Verdict)
    ensures user.None? ==> v == Abort(401, "未认证")
    ensures user.Some? && !user.value.isAdmin ==> v == Abort(403, "需要管理员权限")
    ensures user.Some? && user.value.isAdmin ==> v == Continue(user.value)
  {
    if user.None? then Abort(401, "未认证")
    else if !user.value.isAdmin then Abort(403, "需要管理员权限")
    else Continue(user.value)
  }
}
