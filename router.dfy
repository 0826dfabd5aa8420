/**
 * The HTTP router (backend/internal/router/router.go): the CORS middleware,
 * the route table that Setup builds with its middleware chains, and the
 * NoRoute fallback that ServeFrontend installs. A route's chain is what gin
 * runs for it: the engine's middleware, then its group's, then its own.
 */
module Router {
  import opened Wrappers
  import opened Text
  import opened Json
  import opened Auth

  // ---------------------------------------------------------------------------
  // CORS

  const AllowHeaders := "Content-Type, Content-Length, Accept-Encoding, X-CSRF-Token, Authorization, accept, origin, Cache-Control, X-Requested-With"
  const AllowMethods := "POST, OPTIONS, GET, PUT, DELETE, PATCH"

  /** The response headers CORSMiddleware sets for a request from `origin`. */
  function CorsHeaders(origin: string): (h: map<string, string>)
    ensures h.Keys == {"Access-Control-Allow-Origin", "Access-Control-Allow-Credentials",
                       "Access-Control-Allow-Headers", "Access-Control-Allow-Methods", "Access-Control-Max-Age"}
    ensures h["Access-Control-Allow-Origin"] == if origin == "" then "*" else origin
    ensures h["Access-Control-Allow-Credentials"] == "true"
  {
    map["Access-Control-Allow-Origin" := if origin == "" then "*" else origin,
        "Access-Control-Allow-Credentials" := "true",
        "Access-Control-Allow-Headers" := AllowHeaders,
        "Access-Control-Allow-Methods" := AllowMethods,
        "Access-Control-Max-Age" := "86400"]
  }

  /** CORSMiddleware's verdict: a preflight is answered with 204 and goes no further. */
  function CorsAbort(verb: string): (status: Option<int>)
    ensures status.Some? <==> verb == "OPTIONS"
    ensures status.Some? ==> status.value == 204
  {
    if verb == "OPTIONS" then Some(204) else None
  }

  // ---------------------------------------------------------------------------
  // The route table

  datatype Middleware = Recovery | Cors | JwtAuthMw | AdminRequiredMw | ApiKeyAuthMw

  /** One registration: verb, path relative to its group, its own middleware and its handler. */
  datatype Endpoint = Endpoint(verb: string, path: string, inline: seq<Middleware>, handler: string)

  /** A route group: its base path, its middleware and its endpoints. */
  datatype Group = Group(base: string, middleware: seq<Middleware>, endpoints: seq<Endpoint>)

  /** `r.Use(gin.Recovery())`, `r.Use(CORSMiddleware())`. */
  const EngineMiddleware: seq<Middleware> := [Recovery, Cors]

  const AdminGuard: seq<Middleware> := [JwtAuthMw, AdminRequiredMw]

  function E(verb: string, path: string, handler: string): Endpoint {
    Endpoint(verb, path, [], handler)
  }

  /** Endpoints registered with no middleware of their own, from (verb, path, handler). */
  function Plain(specs: seq<(string, string, string)>): (es: seq<Endpoint>)
    ensures |es| == |specs|
    ensures forall e :: e in es ==> e.inline == []
  {
    seq(|specs|, i requires 0 <= i < |specs| => E(specs[i].0, specs[i].1, specs[i].2))
  }

  /** The engine's own routes, as a group with base "". */
  const EngineRoutes := Group("", [], [E("GET", "/health", "health"), E("GET", "/v1/chat/completions/ws", "OpenAIChatCompletionsWS")])

  const AuthRoutes := Group("/api/auth", [], [
    E("POST", "/login", "Login"),
    Endpoint("GET", "/me", [JwtAuthMw], "GetMe"),
    Endpoint("POST", "/change-password", [JwtAuthMw], "ChangePassword"),
    Endpoint("POST", "/change-username", [JwtAuthMw], "ChangeUsername"),
    Endpoint("POST", "/regenerate-api-key", [JwtAuthMw], "RegenerateAPIKey")])

  const ProviderEndpoints: seq<(string, string, string)> := [
    ("GET", "", "ListProviders"), ("POST", "", "CreateProvider"),
    ("PUT", "/:id", "UpdateProvider"), ("DELETE", "/:id", "DeleteProvider"),
    ("POST", "/:id/fetch-models", "FetchModels"), ("POST", "/:id/add-model", "AddModel"),
    ("GET", "/:id/models", "ListProviderModels"),
    ("GET", "/:id/api-keys", "ListAPIKeys"), ("POST", "/:id/api-keys", "AddAPIKey"),
    ("PUT", "/:id/api-keys/:keyId", "UpdateAPIKey"), ("DELETE", "/:id/api-keys/:keyId", "DeleteAPIKey"),
    ("POST", "/:id/test", "TestConnection"), ("GET", "/:id/test-options", "GetTestOptions")]

  const ProviderRoutes := Group("/api/providers", AdminGuard, Plain(ProviderEndpoints))

  const ModelEndpoints: seq<(string, string, string)> := [
    ("GET", "", "ListAllModels"), ("PUT", "/:id", "UpdateModel"), ("DELETE", "/:id", "DeleteModel"),
    ("POST", "/:id/reset-name", "ResetModelDisplayName"), ("POST", "/batch-toggle", "BatchToggleModels")]

  const ModelRoutes := Group("/api/models", AdminGuard, Plain(ModelEndpoints))

  const LogEndpoints: seq<(string, string, string)> := [
    ("GET", "", "GetLogs"), ("DELETE", "", "ClearLogs"),
    ("GET", "/stats", "GetStats"), ("DELETE", "/stats", "ResetStats")]

  const LogRoutes := Group("/api/logs", AdminGuard, Plain(LogEndpoints))

  const TokenEndpoints: seq<(string, string, string)> := [
    ("GET", "/stats", "GetTodayTokenStats"), ("DELETE", "/stats", "ResetTodayTokenStats")]

  const TokenRoutes := Group("/api/tokens", AdminGuard, Plain(TokenEndpoints))

  const SettingsEndpoints: seq<(string, string, string)> := [
    ("GET", "/stream-mode", "GetStreamMode"), ("PUT", "/stream-mode", "SetStreamMode"),
    ("GET", "/retry", "GetRetrySettings"), ("PUT", "/retry", "SetRetrySettings"),
    ("GET", "/theme", "GetThemeSettings"), ("PUT", "/theme", "SetThemeSettings")]

  const SettingsRoutes := Group("/api/settings", AdminGuard, Plain(SettingsEndpoints))

  const VersionRoutes := Group("/api", [], [E("GET", "/version/check", "CheckVersion")])

  const OpenAIRoutes := Group("/v1", [ApiKeyAuthMw], [
    E("GET", "/models", "OpenAIListModels"), E("POST", "/chat/completions", "OpenAIChatCompletions")])

  /** The groups Setup registers, in order. */
  const Groups: seq<Group> := [EngineRoutes, AuthRoutes, ProviderRoutes, ModelRoutes, LogRoutes,
                               TokenRoutes, SettingsRoutes, VersionRoutes, OpenAIRoutes]

  /** The bases of the admin console's management groups. */
  const AdminBases: set<string> := {"/api/providers", "/api/models", "/api/logs", "/api/tokens", "/api/settings"}

  /** The handlers gin runs for an endpoint of a group, in order. */
  function Chain(g: Group, e: Endpoint): seq<Middleware> {
    EngineMiddleware + g.middleware + e.inline
  }

  /** Which groups are management groups, and what they and their endpoints carry. */
  lemma GroupFacts(i: int)
    requires 0 <= i < |Groups|
    ensures Groups[i].base in AdminBases <==> 2 <= i <= 6
    ensures 2 <= i <= 6 ==> Groups[i].middleware == AdminGuard
    ensures 2 <= i <= 6 ==> forall e :: e in Groups[i].endpoints ==> e.inline == []
  {
    if 2 <= i <= 6 {
      ManagementGroupShape(i);
    } else {
      OtherGroupBase(i);
    }
  }

  /** The five management groups: an admin base, the guard on the group, nothing inline. */
  lemma ManagementGroupShape(i: int)
    requires 2 <= i <= 6
    ensures Groups[i].base in AdminBases && Groups[i].middleware == AdminGuard
    ensures forall e :: e in Groups[i].endpoints ==> e.inline == []
  {
    if i == 2 {
      assert Groups[i] == ProviderRoutes;
    } else if i == 3 {
      assert Groups[i] == ModelRoutes;
    } else if i == 4 {
      assert Groups[i] == LogRoutes;
    } else if i == 5 {
      assert Groups[i] == TokenRoutes;
    } else {
      assert Groups[i] == SettingsRoutes;
    }
  }

  /** The other four groups have bases outside the management set. */
  lemma OtherGroupBase(i: int)
    requires 0 <= i < |Groups| && !(2 <= i <= 6)
    ensures Groups[i].base !in AdminBases
  {
    if i == 0 {
      assert Groups[i] == EngineRoutes && |EngineRoutes.base| == 0;
    } else if i == 1 {
      assert Groups[i] == AuthRoutes && AuthRoutes.base[5] == 'a';
    } else if i == 7 {
      assert Groups[i] == VersionRoutes && |VersionRoutes.base| == 4;
    } else {
      assert Groups[i] == OpenAIRoutes && OpenAIRoutes.base[1] == 'v';
    }
  }

  /** Every route of a management group runs JWTAuth and then AdminRequired, after CORS. */
  lemma AdminGroupsGuarded(g: Group, e: Endpoint)
    requires g in Groups && g.base in AdminBases && e in g.endpoints
    ensures Chain(g, e) == [Recovery, Cors, JwtAuthMw, AdminRequiredMw]
  {
    var i :| 0 <= i < |Groups| && Groups[i] == g;
    GroupFacts(i);
  }

  /** Login carries no authentication. */
  lemma LoginIsPublic()
    ensures Groups[1] == AuthRoutes
    ensures AuthRoutes.base + AuthRoutes.endpoints[0].path == "/api/auth/login"
    ensures Chain(AuthRoutes, AuthRoutes.endpoints[0]) == [Recovery, Cors]
  {
    assert AuthRoutes.endpoints[0] == E("POST", "/login", "Login");
  }

  /** The version check carries no authentication. */
  lemma VersionCheckIsPublic()
    ensures VersionRoutes.base + VersionRoutes.endpoints[0].path == "/api/version/check"
    ensures Chain(VersionRoutes, VersionRoutes.endpoints[0]) == [Recovery, Cors]
  {
  }

  /** The health check carries no authentication, and neither does the WebSocket chat route. */
  lemma EngineRoutesArePublic(e: Endpoint)
    requires e in EngineRoutes.endpoints
    ensures Groups[0] == EngineRoutes
    ensures e.path in {"/health", "/v1/chat/completions/ws"}
    ensures Chain(EngineRoutes, e) == [Recovery, Cors]
  {
  }

  /** Every /v1 group route requires an API key. */
  lemma V1RoutesNeedApiKey(e: Endpoint)
    requires e in Groups[8].endpoints
    ensures Groups[8].base == "/v1"
    ensures Chain(Groups[8], e) == [Recovery, Cors, ApiKeyAuthMw]
  {
  }

  // ---------------------------------------------------------------------------
  // Running a chain

  /** What the middleware sees of a request. */
  datatype Request = Request(verb: string, origin: string, authorization: string)

  /** A chain either answers the request itself or hands it to the handler with the context user. */
  datatype Outcome = Responded(status: int) | Reached(user: Option<User>)

  /** The middleware one by one: each may abort; JWTAuth and APIKeyAuth set the user. */
  function Run(chain: seq<Middleware>, req: Request, user: Option<User>,
               decode: string -> Option<map<string, Json>>, users: seq<User>): (r: Outcome)
    ensures r.Responded? ==> r.status == 204 || r.status == 401 || r.status == 403
    ensures r.Reached? && r.user != user ==> r.user.Some? && r.user.value in users && r.user.value.isActive
    decreases |chain|
  {
    if chain == [] then Reached(user)
    else
      match chain[0]
      case Recovery => Run(chain[1..], req, user, decode, users)
      case Cors =>
        if CorsAbort(req.verb).Some? then Responded(CorsAbort(req.verb).value)
        else Run(chain[1..], req, user, decode, users)
      case JwtAuthMw =>
        (match JwtAuth(req.authorization, decode, users)
         case Abort(status, _) => Responded(status)
         case Continue(u) => Run(chain[1..], req, Some(u), decode, users))
      case AdminRequiredMw =>
        (match AdminRequired(user)
         case Abort(status, _) => Responded(status)
         case Continue(_) => Run(chain[1..], req, user, decode, users))
      case ApiKeyAuthMw =>
        (match ApiKeyAuth(req.authorization, users)
         case Abort(status, _) => Responded(status)
         case Continue(u) => Run(chain[1..], req, Some(u), decode, users))
  }

  /** A preflight is answered 204 by CORS on every route, before any authentication. */
  lemma PreflightNeverAuthenticated(g: Group, e: Endpoint, req: Request,
                                    decode: string -> Option<map<string, Json>>, users: seq<User>)
    requires req.verb == "OPTIONS"
    ensures Run(Chain(g, e), req, None, decode, users) == Responded(204)
  {
    assert Chain(g, e)[0] == Recovery && Chain(g, e)[1..][0] == Cors;
  }

  /**
   * A management route's handler runs exactly for an active admin holding a
   * valid console token; otherwise the answer is 401 (no or bad credentials)
   * or 403 (not an admin).
   */
  lemma AdminRouteDecision(g: Group, e: Endpoint, req: Request,
                           decode: string -> Option<map<string, Json>>, users: seq<User>)
    requires g in Groups && g.base in AdminBases && e in g.endpoints
    requires req.verb != "OPTIONS"
    ensures var o := Run(Chain(g, e), req, None, decode, users);
      var v := JwtAuth(req.authorization, decode, users);
      (o.Reached? <==> v.Continue? && v.user.isAdmin) &&
      (o.Reached? ==> o.user == Some(v.user)) &&
      (v.Abort? ==> o == Responded(401)) &&
      (v.Continue? && !v.user.isAdmin ==> o == Responded(403))
  {
    AdminGroupsGuarded(g, e);
    AdminChainDecision(req, decode, users);
  }

  /** The decision of the management chain itself, for a request that is not a preflight. */
  lemma AdminChainDecision(req: Request, decode: string -> Option<map<string, Json>>, users: seq<User>)
    requires req.verb != "OPTIONS"
    ensures var o := Run([Recovery, Cors, JwtAuthMw, AdminRequiredMw], req, None, decode, users);
      var v := JwtAuth(req.authorization, decode, users);
      (o.Reached? <==> v.Continue? && v.user.isAdmin) &&
      (o.Reached? ==> o.user == Some(v.user)) &&
      (v.Abort? ==> o == Responded(401)) &&
      (v.Continue? && !v.user.isAdmin ==> o == Responded(403))
  {
    var c := [Recovery, Cors, JwtAuthMw, AdminRequiredMw];
    assert c[1..] == [Cors, JwtAuthMw, AdminRequiredMw];
    assert c[1..][1..] == [JwtAuthMw, AdminRequiredMw];
    assert c[1..][1..][1..] == [AdminRequiredMw];
    JwtAuthDecision(req.authorization, decode, users);
  }

  /** A /v1 route's handler runs exactly for a key held by an active user, as that user. */
  lemma V1RouteDecision(e: Endpoint, req: Request, decode: string -> Option<map<string, Json>>, users: seq<User>)
    requires e in Groups[8].endpoints
    requires req.verb != "OPTIONS"
    ensures var o := Run(Chain(Groups[8], e), req, None, decode, users);
      var v := ApiKeyAuth(req.authorization, users);
      (o.Reached? <==> v.Continue?) &&
      (o.Reached? ==> o.user == Some(v.user)) &&
      (o.Responded? ==> o.status == 401)
  {
    V1RoutesNeedApiKey(e);
    var c := [Recovery, Cors, ApiKeyAuthMw];
    assert c[1..] == [Cors, ApiKeyAuthMw] && c[1..][1..] == [ApiKeyAuthMw];
  }

  // ---------------------------------------------------------------------------
  // The NoRoute fallback

  datatype Fallback = NotFoundJson | SpaIndex

  /**
   * ServeFrontend's NoRoute: API-looking paths get a JSON 404, everything
   * else the single-page app's index.html.
   */
  function NoRoute(path: string): Fallback {
    if |path| > 4 && path[..4] == "/api" then NotFoundJson
    else if |path| > 3 && path[..3] == "/v1" then NotFoundJson
    else SpaIndex
  }

  /**
   * The JSON 404 goes exactly to paths longer than their "/api" or "/v1"
   * prefix; "/api" and "/v1" themselves, and every console route, get the
   * app. The test is on the characters only, so "/apix" and "/v10" count as
   * API paths.
   */
  lemma NoRouteClassifies(path: string)
    ensures NoRoute(path) == NotFoundJson <==>
      (HasPrefix(path, "/api") && |path| > 4) || (HasPrefix(path, "/v1") && |path| > 3)
    ensures NoRoute("/api") == SpaIndex && NoRoute("/v1") == SpaIndex
    ensures NoRoute("/login") == SpaIndex && NoRoute("/dashboard") == SpaIndex
    ensures NoRoute("/apix") == NotFoundJson && NoRoute("/v10") == NotFoundJson
  {
    assert "/apix"[..4] == "/api";
    assert "/v10"[..3] == "/v1";
    assert "/api"[..3][1] != "/v1"[1];
    assert "/login"[..4][1] != "/api"[1] && "/login"[..3][1] != "/v1"[1];
    assert "/dashboard"[..4][1] != "/api"[1] && "/dashboard"[..3][1] != "/v1"[1];
  }
}
