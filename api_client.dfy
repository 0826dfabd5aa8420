/**
 * The admin console's HTTP client (frontend/src/api/index.js): an axios
 * instance whose request interceptor attaches the stored bearer token and
 * whose response interceptor reports errors, forces a logout on 401 and
 * rejects again. The browser state the console touches (localStorage, the
 * location, the toasts, the `dark` class and the colour-scheme preference) is
 * one `Browser` object shared by the stores; the transport itself is left
 * out: each call's outcome is a parameter.
 */
module ApiClient {
  import opened Wrappers

  const TokenKey := "token"
  const LoginPath := "/login"
  const GenericFailure := "请求失败"

  /** What the console can observe and change in the browser. */
  class Browser {
    /** localStorage. */
    var storage: map<string, string>
    /** window.location.href, as a path. */
    var location: string
    /** The ElMessage error toasts shown so far, oldest first. */
    var toasts: seq<string>
    /** Whether the document element carries the `dark` class. */
    var dark: bool
    /** `matchMedia('(prefers-color-scheme: dark)').matches`. */
    var prefersDark: bool

    constructor (storage0: map<string, string>, location0: string, prefersDark0: bool)
      ensures storage == storage0 && location == location0 && prefersDark == prefersDark0
      ensures toasts == [] && !dark
    {
      storage := storage0;
      location := location0;
      toasts := [];
      dark := false;
      prefersDark := prefersDark0;
    }
  }

  /** JavaScript truthiness of an optional string: present and non-empty. */
  predicate Truthy(s: Option<string>) {
    s.Some? && s.value != ""
  }

  // ---------------------------------------------------------------------------
  // Outgoing requests

  /** The part of an axios request config the interceptor may touch. */
  datatype RequestConfig = RequestConfig(verb: string, url: string, headers: map<string, string>, body: Option<string>)

  /**
   * The request interceptor: with a non-empty stored token, the config gets
   * `Authorization: Bearer <token>`; otherwise it goes out unchanged.
   */
  function WithBearer(config: RequestConfig, storage: map<string, string>): (c: RequestConfig)
    ensures Truthy(Get(storage, TokenKey)) ==>
      c == config.(headers := config.headers["Authorization" := "Bearer " + storage[TokenKey]])
    ensures !Truthy(Get(storage, TokenKey)) ==> c == config
  {
    var token := Get(storage, TokenKey);
    if Truthy(token) then config.(headers := config.headers["Authorization" := "Bearer " + token.value])
    else config
  }

  /** Only the Authorization header is added or replaced; verb, url, body and other headers stay. */
  lemma WithBearerTouchesOnlyAuthorization(config: RequestConfig, storage: map<string, string>, h: string)
    requires h != "Authorization" && h in config.headers
    ensures var c := WithBearer(config, storage);
      c.verb == config.verb && c.url == config.url && c.body == config.body &&
      h in c.headers && c.headers[h] == config.headers[h]
  {
  }

  // ---------------------------------------------------------------------------
  // Responses

  /** The server's answer to a failed request, when there was one. */
  datatype ErrorResponse = ErrorResponse(status: int, detail: Option<string>)

  /** An axios error: its message and, unless the request never got an answer, the response. */
  datatype HttpError = HttpError(message: string, response: Option<ErrorResponse>)

  /** A settled request: the response data, or the error the promise rejects with. */
  datatype Outcome<T> = Success(data: T) | Failure(error: HttpError)

  /** The toast text: the server's `detail`, else the error's message, else the generic text. */
  function ErrorMessage(e: HttpError): (msg: string)
    ensures e.response.Some? && Truthy(e.response.value.detail) ==> msg == e.response.value.detail.value
    ensures !(e.response.Some? && Truthy(e.response.value.detail)) && e.message != "" ==> msg == e.message
    ensures !(e.response.Some? && Truthy(e.response.value.detail)) && e.message == "" ==> msg == GenericFailure
    ensures msg != ""
  {
    if e.response.Some? && Truthy(e.response.value.detail) then e.response.value.detail.value
    else if e.message != "" then e.message
    else GenericFailure
  }

  /** Whether the error is the server's 401. */
  predicate Unauthorized(e: HttpError) {
    e.response.Some? && e.response.value.status == 401
  }

  /** The axios instance: base URL '' (same origin) and a 30 s timeout. */
  class Client {
    const baseUrl: string
    const timeoutMs: int
    const browser: Browser

    constructor (b: Browser)
      ensures browser == b && baseUrl == "" && timeoutMs == 30000
    {
      browser := b;
      baseUrl := "";
      timeoutMs := 30000;
    }

    /** The request interceptor, reading the token at send time. */
    function Prepare(config: RequestConfig): (c: RequestConfig)
      reads browser
    {
      WithBearer(config, browser.storage)
    }

    /**
     * The response interceptor's error branch: exactly one toast; on 401 the
     * stored token is removed and the page sent to /login; any other error
     * leaves storage and location alone. The error is rejected again.
     */
    method OnError(e: HttpError)
      modifies browser
      ensures browser.toasts == old(browser.toasts) + [ErrorMessage(e)]
      ensures Unauthorized(e) ==> browser.storage == old(browser.storage) - {TokenKey} && browser.location == LoginPath
      ensures !Unauthorized(e) ==> browser.storage == old(browser.storage) && browser.location == old(browser.location)
      ensures browser.dark == old(browser.dark) && browser.prefersDark == old(browser.prefersDark)
    {
      browser.toasts := browser.toasts + [ErrorMessage(e)];
      if e.response.Some? && e.response.value.status == 401 {
        browser.storage := browser.storage - {TokenKey};
        browser.location := LoginPath;
      }
    }

    /**
     * A request settling through the interceptors: a success passes through
     * untouched; a failure runs OnError and is handed back to the caller.
     */
    method Settle<T>(outcome: Outcome<T>) returns (r: Outcome<T>)
      modifies browser
      ensures r == outcome
      ensures outcome.Success? ==> unchanged(browser)
      ensures outcome.Failure? ==> browser.toasts == old(browser.toasts) + [ErrorMessage(outcome.error)]
      ensures outcome.Failure? && Unauthorized(outcome.error) ==>
        browser.storage == old(browser.storage) - {TokenKey} && browser.location == LoginPath
      ensures outcome.Failure? && !Unauthorized(outcome.error) ==>
        browser.storage == old(browser.storage) && browser.location == old(browser.location)
      ensures browser.dark == old(browser.dark) && browser.prefersDark == old(browser.prefersDark)
    {
      if outcome.Failure? {
        OnError(outcome.error);
      }
      return outcome;
    }
  }

  /** After the 401 branch, a request prepared from the new storage carries no credential. */
  lemma NoBearerAfterUnauthorized(config: RequestConfig, storage: map<string, string>)
    requires "Authorization" !in config.headers
    ensures "Authorization" !in WithBearer(config, storage - {TokenKey}).headers
  {
  }

  /** With a token stored, the header carries exactly that token after "Bearer ". */
  lemma BearerCarriesToken(config: RequestConfig, storage: map<string, string>)
    requires TokenKey in storage && storage[TokenKey] != ""
    ensures var h := WithBearer(config, storage).headers["Authorization"];
      |h| == 7 + |storage[TokenKey]| && h[..7] == "Bearer " && h[7..] == storage[TokenKey]
  {
  }
}
