/**
 * The console's session store (frontend/src/stores/user.js): the access
 * token, the signed-in user's profile, login, fetchUser and logout. Each
 * awaited request is one call whose outcome is a parameter; the response
 * interceptor of the HTTP client runs on every failure, as in the browser.
 */
module SessionStore {
  import opened Wrappers
  import opened ApiClient

  /** The `/api/auth/me` answer (id, username, api_key, is_admin). */
  datatype Profile = Profile(id: int, username: string, apiKey: string, isAdmin: bool)

  /** The states a session goes through. */
  datatype SessionState = LoggedOut | LoggedInUnverified | LoggedIn

  /** `localStorage.getItem('token') || ''`. */
  function InitialToken(storage: map<string, string>): (t: string)
    ensures TokenKey in storage ==> t == storage[TokenKey]
    ensures TokenKey !in storage ==> t == ""
  {
    Get(storage, TokenKey).GetOr("")
  }

  /** A page loaded after a forced logout starts logged out. */
  lemma ReloadAfterUnauthorizedIsLoggedOut(storage: map<string, string>)
    ensures InitialToken(storage - {TokenKey}) == ""
  {
  }

  class UserStore {
    const api: Client
    var token: string
    var user: Option<Profile>

    /** `isLoggedIn`: a non-empty token, whether or not the profile is known yet. */
    predicate IsLoggedIn()
      reads this
    {
      token != ""
    }

    function State(): (s: SessionState)
      reads this
      ensures s == LoggedOut <==> !IsLoggedIn()
    {
      if token == "" then LoggedOut else if user.None? then LoggedInUnverified else LoggedIn
    }

    /**
     * The store's set-up: the token from storage, no profile, and a profile
     * fetch when there is a token (its outcome is `startup`).
     */
    constructor (client: Client, startup: Outcome<Profile>)
      modifies client.browser
      ensures api == client
      ensures var t := InitialToken(old(client.browser.storage));
        if t == "" then
          token == "" && user.None? && unchanged(client.browser)
        else if startup.Success? then
          token == t && user == Some(startup.data) && unchanged(client.browser)
        else
          token == "" && user.None? &&
          client.browser.storage == old(client.browser.storage) - {TokenKey} &&
          client.browser.toasts == old(client.browser.toasts) + [ErrorMessage(startup.error)] &&
          client.browser.location == (if Unauthorized(startup.error) then LoginPath else old(client.browser.location))
    {
      api := client;
      token := InitialToken(client.browser.storage);
      user := None;
      new;
      if token != "" {
        FetchUser(startup);
      }
    }

    /** logout: forget the token and the profile, in memory and in storage. */
    method Logout()
      modifies this, api.browser
      ensures token == "" && user.None?
      ensures api.browser.storage == old(api.browser.storage) - {TokenKey}
      ensures api.browser.location == old(api.browser.location) && api.browser.toasts == old(api.browser.toasts)
      ensures api.browser.dark == old(api.browser.dark) && api.browser.prefersDark == old(api.browser.prefersDark)
    {
      token := "";
      user := None;
      api.browser.storage := api.browser.storage - {TokenKey};
    }

    /**
     * fetchUser: nothing without a token; otherwise GET /api/auth/me, keeping
     * the profile on success and logging out on any failure.
     */
    method FetchUser(me: Outcome<Profile>)
      modifies this, api.browser
      ensures old(token) == "" ==> token == old(token) && user == old(user) && unchanged(api.browser)
      ensures old(token) != "" && me.Success? ==>
        token == old(token) && user == Some(me.data) && unchanged(api.browser)
      ensures old(token) != "" && me.Failure? ==>
        token == "" && user.None? &&
        api.browser.storage == old(api.browser.storage) - {TokenKey} &&
        api.browser.toasts == old(api.browser.toasts) + [ErrorMessage(me.error)] &&
        api.browser.location == (if Unauthorized(me.error) then LoginPath else old(api.browser.location))
      ensures api.browser.dark == old(api.browser.dark) && api.browser.prefersDark == old(api.browser.prefersDark)
    {
      if token == "" {
        return;
      }
      var res := api.Settle(me);
      if res.Failure? {
        Logout();
        return;
      }
      user := Some(res.data);
    }

    /**
     * login: POST the credentials (outcome `post`, the access token on
     * success); on failure the error propagates (`ok` false) with token and
     * profile untouched. Otherwise the token is stored, in memory and in
     * storage, before the profile is fetched (outcome `me`).
     */
    method Login(username: string, password: string, post: Outcome<string>, me: Outcome<Profile>)
      returns (ok: bool)
      modifies this, api.browser
      ensures ok <==> post.Success?
      ensures !ok ==> token == old(token) && user == old(user)
      ensures !ok ==> api.browser.toasts == old(api.browser.toasts) + [ErrorMessage(post.error)]
      ensures !ok && Unauthorized(post.error) ==>
        api.browser.storage == old(api.browser.storage) - {TokenKey} && api.browser.location == LoginPath
      ensures !ok && !Unauthorized(post.error) ==>
        api.browser.storage == old(api.browser.storage) && api.browser.location == old(api.browser.location)
      ensures ok && post.data != "" && me.Success? ==>
        token == post.data && user == Some(me.data) && State() == LoggedIn &&
        api.browser.storage == old(api.browser.storage)[TokenKey := post.data] &&
        api.browser.location == old(api.browser.location) && api.browser.toasts == old(api.browser.toasts)
      ensures ok && post.data != "" && me.Failure? ==>
        token == "" && user.None? && State() == LoggedOut &&
        api.browser.storage == old(api.browser.storage) - {TokenKey} &&
        api.browser.toasts == old(api.browser.toasts) + [ErrorMessage(me.error)] &&
        api.browser.location == (if Unauthorized(me.error) then LoginPath else old(api.browser.location))
      ensures ok && post.data == "" ==>
        token == "" && user == old(user) && State() == LoggedOut &&
        api.browser.storage == old(api.browser.storage)[TokenKey := ""] &&
        api.browser.location == old(api.browser.location) && api.browser.toasts == old(api.browser.toasts)
      ensures api.browser.dark == old(api.browser.dark) && api.browser.prefersDark == old(api.browser.prefersDark)
    {
      var res := api.Settle(post);
      if res.Failure? {
        return false;
      }
      token := res.data;
      api.browser.storage := api.browser.storage[TokenKey := token];
      FetchUser(me);
      return true;
    }
  }
}
