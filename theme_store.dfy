/**
 * The console's theme store (frontend/src/stores/theme.js): the preference
 * (light, dark or auto), its projection onto the document's `dark` class,
 * its copy in localStorage and on the server. Vue's `watch` on the
 * preference is an explicit applyTheme after each change; each remote call's
 * outcome is a parameter and goes through the HTTP client's interceptors.
 */
module ThemeStore {
  import opened Wrappers
  import opened ApiClient

  const ThemeKey := "theme"
  const Themes: seq<string> := ["light", "dark", "auto"]

  /** The appearance a preference resolves to: the system's for "auto", dark only for "dark". */
  function Appearance(theme: string, prefersDark: bool): bool {
    if theme == "auto" then prefersDark else theme == "dark"
  }

  /** `localStorage.getItem('theme') || 'light'`. */
  function InitialTheme(storage: map<string, string>): (t: string)
    ensures TokenKey != ThemeKey
    ensures ThemeKey in storage && storage[ThemeKey] != "" ==> t == storage[ThemeKey]
    ensures !(ThemeKey in storage && storage[ThemeKey] != "") ==> t == "light"
  {
    var v := Get(storage, ThemeKey);
    if Truthy(v) then v.value else "light"
  }

  // ---------------------------------------------------------------------------
  // toggleTheme's index arithmetic

  /** `themes.indexOf(value)`: the first position, or -1. */
  function IndexOf(s: seq<string>, x: string): (i: int)
    ensures -1 <= i < |s|
    ensures i >= 0 ==> s[i] == x && forall j :: 0 <= j < i ==> s[j] != x
    ensures i == -1 ==> x !in s
    decreases |s|
  {
    if s == [] then -1
    else if s[0] == x then 0
    else
      var k := IndexOf(s[1..], x);
      if k == -1 then -1 else k + 1
  }

  /** The theme toggleTheme moves to: `themes[(indexOf + 1) % 3]`. */
  function NextTheme(current: string): (next: string)
    ensures next in Themes
  {
    Themes[(IndexOf(Themes, current) + 1) % |Themes|]
  }

  /** light → dark → auto → light, and anything else → light. */
  lemma NextThemeCycle(current: string)
    ensures current == "light" ==> NextTheme(current) == "dark"
    ensures current == "dark" ==> NextTheme(current) == "auto"
    ensures current == "auto" ==> NextTheme(current) == "light"
    ensures current !in Themes ==> NextTheme(current) == "light"
  {
    assert Themes[0] == "light" && Themes[1] == "dark" && Themes[2] == "auto";
  }

  /** Three toggles bring any of the three themes back to itself. */
  lemma ThreeTogglesIdentity(current: string)
    requires current in Themes
    ensures NextTheme(NextTheme(NextTheme(current))) == current
  {
    NextThemeCycle(current);
    NextThemeCycle(NextTheme(current));
    NextThemeCycle(NextTheme(NextTheme(current)));
  }

  class ThemeStore {
    const api: Client
    /** The `theme` ref: the raw preference. */
    var theme: string

    /**
     * The document shows the preference resolved against the system, and
     * storage holds the raw preference (never the resolved appearance).
     */
    ghost predicate Valid()
      reads this, api.browser
    {
      api.browser.dark == Appearance(theme, api.browser.prefersDark) &&
      ThemeKey in api.browser.storage && api.browser.storage[ThemeKey] == theme
    }

    /** Set-up: the stored preference or 'light', applied at once (the immediate watcher). */
    constructor (client: Client)
      modifies client.browser
      ensures api == client && Valid()
      ensures theme == InitialTheme(old(client.browser.storage))
      ensures client.browser.storage == old(client.browser.storage)[ThemeKey := theme]
      ensures client.browser.toasts == old(client.browser.toasts) && client.browser.location == old(client.browser.location)
      ensures client.browser.prefersDark == old(client.browser.prefersDark)
      ensures client.browser.dark == Appearance(theme, old(client.browser.prefersDark))
    {
      api := client;
      theme := InitialTheme(client.browser.storage);
      new;
      ApplyTheme(theme);
    }

    /**
     * applyTheme: the `dark` class from the value (the system preference for
     * 'auto'), and the raw value into storage.
     */
    method ApplyTheme(value: string)
      modifies api.browser
      ensures api.browser.dark == Appearance(value, api.browser.prefersDark)
      ensures api.browser.storage == old(api.browser.storage)[ThemeKey := value]
      ensures api.browser.prefersDark == old(api.browser.prefersDark)
      ensures api.browser.toasts == old(api.browser.toasts) && api.browser.location == old(api.browser.location)
    {
      if value == "auto" {
        api.browser.dark := api.browser.prefersDark;
      } else {
        api.browser.dark := value == "dark";
      }
      api.browser.storage := api.browser.storage[ThemeKey := value];
    }

    /**
     * The colour-scheme listener: the system preference flips to `matches`;
     * only under 'auto' does the document follow; nothing is stored.
     */
    method SystemPreferenceChanged(matches: bool)
      requires Valid()
      modifies api.browser
      ensures Valid()
      ensures api.browser.prefersDark == matches
      ensures api.browser.dark == if theme == "auto" then matches else old(api.browser.dark)
      ensures api.browser.storage == old(api.browser.storage) && theme == old(theme)
      ensures api.browser.toasts == old(api.browser.toasts) && api.browser.location == old(api.browser.location)
    {
      api.browser.prefersDark := matches;
      if theme == "auto" {
        api.browser.dark := matches;
      }
    }

    /**
     * loadTheme: adopt and apply the server's theme; on any failure keep and
     * re-apply the current one. Nothing is thrown to the caller either way.
     */
    method LoadTheme(get: Outcome<string>)
      requires Valid()
      modifies this, api.browser
      ensures Valid()
      ensures theme == if get.Success? then get.data else old(theme)
      ensures api.browser.dark == Appearance(theme, old(api.browser.prefersDark))
      ensures api.browser.prefersDark == old(api.browser.prefersDark)
      ensures get.Success? ==> api.browser.storage == old(api.browser.storage)[ThemeKey := get.data] &&
                               api.browser.toasts == old(api.browser.toasts) &&
                               api.browser.location == old(api.browser.location)
      ensures get.Failure? ==> api.browser.toasts == old(api.browser.toasts) + [ErrorMessage(get.error)]
      ensures get.Failure? && !Unauthorized(get.error) ==>
        api.browser.storage == old(api.browser.storage) && api.browser.location == old(api.browser.location)
      ensures get.Failure? && Unauthorized(get.error) ==>
        api.browser.storage == old(api.browser.storage) - {TokenKey} && api.browser.location == LoginPath
    {
      var res := api.Settle(get);
      if res.Success? {
        theme := res.data;
        ApplyTheme(theme);
      } else {
        ApplyTheme(theme);
      }
    }

    /**
     * setTheme: the preference changes and is applied before the PUT; a failed
     * PUT is only reported and never rolled back.
     */
    method SetTheme(value: string, put: Outcome<()>)
      modifies this, api.browser
      ensures Valid()
      ensures theme == value
      ensures api.browser.dark == Appearance(value, old(api.browser.prefersDark))
      ensures api.browser.prefersDark == old(api.browser.prefersDark)
      ensures put.Success? ==> api.browser.storage == old(api.browser.storage)[ThemeKey := value] &&
                               api.browser.toasts == old(api.browser.toasts) &&
                               api.browser.location == old(api.browser.location)
      ensures put.Failure? ==> api.browser.toasts == old(api.browser.toasts) + [ErrorMessage(put.error)]
      ensures put.Failure? && !Unauthorized(put.error) ==>
        api.browser.storage == old(api.browser.storage)[ThemeKey := value] && api.browser.location == old(api.browser.location)
      ensures put.Failure? && Unauthorized(put.error) ==>
        api.browser.storage == old(api.browser.storage)[ThemeKey := value] - {TokenKey} && api.browser.location == LoginPath
    {
      theme := value;
      ApplyTheme(value);
      var _ := api.Settle(put);
    }

    /** toggleTheme: setTheme with the next theme in the cycle. */
    method ToggleTheme(put: Outcome<()>)
      modifies this, api.browser
      ensures Valid()
      ensures theme == NextTheme(old(theme))
      ensures api.browser.dark == Appearance(theme, old(api.browser.prefersDark))
      ensures api.browser.prefersDark == old(api.browser.prefersDark)
      ensures put.Success? ==> api.browser.storage == old(api.browser.storage)[ThemeKey := theme] &&
                               api.browser.toasts == old(api.browser.toasts) &&
                               api.browser.location == old(api.browser.location)
      ensures put.Failure? ==> api.browser.toasts == old(api.browser.toasts) + [ErrorMessage(put.error)]
      ensures put.Failure? && !Unauthorized(put.error) ==>
        api.browser.storage == old(api.browser.storage)[ThemeKey := theme] && api.browser.location == old(api.browser.location)
      ensures put.Failure? && Unauthorized(put.error) ==>
        api.browser.storage == old(api.browser.storage)[ThemeKey := theme] - {TokenKey} && api.browser.location == LoginPath
    {
      SetTheme(NextTheme(theme), put);
    }
  }

  /** A change of the system preference shows on the page exactly when the preference is 'auto'. */
  lemma OnlyAutoFollowsSystem(theme: string)
    ensures Appearance(theme, true) != Appearance(theme, false) <==> theme == "auto"
  {
  }

  /** Only 'dark' (or 'auto' on a dark system) darkens the page; any unknown value shows light. */
  lemma UnknownThemeIsLight(theme: string, prefersDark: bool)
    requires theme !in Themes
    ensures !Appearance(theme, prefersDark)
  {
    assert Themes[1] == "dark" && Themes[2] == "auto";
  }
}
