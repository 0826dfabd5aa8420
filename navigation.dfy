/**
 * The console's client-side routes and their guard
 * (frontend/src/router/index.js): the route table, vue-router's resolution of
 * a path to its matched record (with the `meta` of the parent merged in and
 * record redirects followed before any guard), and the global `beforeEach`
 * guard deciding on (requiresAuth, path, isLoggedIn) alone.
 */
module Navigation {
  import opened Wrappers
  import opened Text

  const LoginPath := "/login"
  const RootPath := "/"
  const DashboardPath := "/dashboard"

  /** A child of a layout record: its relative path, and its redirect if it has one. */
  datatype Child = Child(path: string, redirect: Option<string>)

  /** A top-level route record: its path, its `meta.requiresAuth` and its children. */
  datatype RouteRecord = RouteRecord(path: string, requiresAuth: bool, children: seq<Child>)

  /** The routes: /login alone, and the authenticated layout at '/' with its pages. */
  const Routes: seq<RouteRecord> := [
    RouteRecord("/login", false, []),
    RouteRecord("/", true, [
      Child("", Some("/dashboard")),
      Child("dashboard", None),
      Child("providers", None),
      Child("models", None),
      Child("logs", None),
      Child("settings", None),
      Child("about", None)
    ])
  ]

  /** A resolved route: its full path, the merged `meta.requiresAuth` and the redirect of its record. */
  datatype Matched = Matched(fullPath: string, requiresAuth: bool, redirect: Option<string>)

  /** A child's full path under its parent, the way vue-router joins them. */
  function JoinPath(parent: string, child: string): string {
    if child == "" then parent
    else if |parent| > 0 && parent[|parent| - 1] == '/' then parent + child
    else parent + "/" + child
  }

  /** The matchable routes of one record: itself when it has no children, else each child. */
  function Entries(r: RouteRecord): (es: seq<Matched>)
    ensures |es| == if r.children == [] then 1 else |r.children|
    ensures forall i :: 0 <= i < |es| ==> es[i].requiresAuth == r.requiresAuth
  {
    if r.children == [] then
      [Matched(r.path, r.requiresAuth, None)]
    else
      seq(|r.children|, i requires 0 <= i < |r.children| =>
        Matched(JoinPath(r.path, r.children[i].path), r.requiresAuth, r.children[i].redirect))
  }

  /** The matchable routes of the whole table, in order. */
  function AllEntries(rs: seq<RouteRecord>): seq<Matched>
    decreases |rs|
  {
    if rs == [] then [] else Entries(rs[0]) + AllEntries(rs[1..])
  }

  /**
   * How vue-router's default matcher (neither `sensitive` nor `strict`)
   * compares paths: ASCII letters without case, and one trailing '/' optional.
   * A path and a record resolve to each other exactly when their keys agree.
   */
  function Key(path: string): (k: string)
    ensures |k| <= |path|
  {
    var lower := ToLower(path);
    if |lower| > 0 && lower[|lower| - 1] == '/' then lower[..|lower| - 1] else lower
  }

  /** A path without capitals or a trailing '/' is its own key. */
  lemma KeyOfCanonical(path: string)
    requires forall i :: 0 <= i < |path| ==> !('A' <= path[i] <= 'Z')
    requires |path| > 0 ==> path[|path| - 1] != '/'
    ensures Key(path) == path
  {
    assert ToLower(path) == path;
  }

  /**
   * The key of a record's full path. The console's records are written in
   * lower case without a trailing '/', so only '/' needs rewriting
   * (RecordKeysAreKeys shows this agrees with Key on the whole table).
   */
  function RecordKey(fullPath: string): string {
    if fullPath == RootPath then "" else fullPath
  }

  /** The first entry whose full path has the key `key`. */
  function FindEntry(es: seq<Matched>, key: string): (m: Option<Matched>)
    ensures m.Some? ==> m.value in es && RecordKey(m.value.fullPath) == key
    ensures m.None? ==> forall e :: e in es ==> RecordKey(e.fullPath) != key
    decreases |es|
  {
    if es == [] then None
    else if RecordKey(es[0].fullPath) == key then Some(es[0])
    else FindEntry(es[1..], key)
  }

  /** The console's matchable routes. */
  function Table(): seq<Matched> {
    AllEntries(Routes)
  }

  /** Resolve: the matched route of a path, or None when nothing matches. */
  function Lookup(path: string): (m: Option<Matched>)
    ensures m.Some? ==> RecordKey(m.value.fullPath) == Key(path)
  {
    FindEntry(Table(), Key(path))
  }

  /** The layout's pages, by full path. */
  const Pages: seq<string> := ["/dashboard", "/providers", "/models", "/logs", "/settings", "/about"]

  /** The table, written out. */
  lemma TableContents()
    ensures Table() == [Matched(LoginPath, false, None), Matched(RootPath, true, Some(DashboardPath))] +
      seq(|Pages|, i requires 0 <= i < |Pages| => Matched(Pages[i], true, None))
  {
    var layout := Routes[1];
    assert Entries(Routes[0]) == [Matched(LoginPath, false, None)];
    assert AllEntries(Routes[2..]) == [];
    assert AllEntries(Routes[1..]) == Entries(layout) + AllEntries(Routes[2..]);
    assert layout.path[|layout.path| - 1] == '/';
    forall i | 1 <= i < |layout.children|
      ensures JoinPath(layout.path, layout.children[i].path) == Pages[i - 1]
    {
    }
  }

  /** The keys of the three paths the guard and the redirects name. */
  lemma KeyFacts()
    ensures Key(LoginPath) == LoginPath && Key(DashboardPath) == DashboardPath && Key(RootPath) == ""
  {
    KeyOfCanonical(LoginPath);
    KeyOfCanonical(DashboardPath);
    assert ToLower(RootPath) == RootPath;
  }

  /** Each page path is already in the matcher's canonical form. */
  lemma PageKeys()
    ensures forall i :: 0 <= i < |Pages| ==> Key(Pages[i]) == Pages[i]
  {
    forall i | 0 <= i < |Pages|
      ensures Key(Pages[i]) == Pages[i]
    {
      KeyOfCanonical(Pages[i]);
    }
  }

  /** Every record's key is the key vue-router's matcher gives its full path. */
  lemma RecordKeysAreKeys(j: nat)
    requires j < |Table()|
    ensures RecordKey(Table()[j].fullPath) == Key(Table()[j].fullPath)
  {
    TableAt(j);
    var p := Table()[j].fullPath;
    if j == 0 {
      KeyOfCanonical(p);
    } else if j == 1 {
      assert ToLower(p) == RootPath;
    } else {
      PageKeys();
      PagesApart();
      assert p == Pages[j - 2];
    }
  }

  /** FindEntry returns the first entry with the key. */
  lemma {:induction false} FindEntryFirst(es: seq<Matched>, key: string, i: nat)
    requires i < |es| && RecordKey(es[i].fullPath) == key
    requires forall j :: 0 <= j < i ==> RecordKey(es[j].fullPath) != key
    ensures FindEntry(es, key) == Some(es[i])
    decreases i
  {
    if i > 0 {
      FindEntryFirst(es[1..], key, i - 1);
    }
  }

  /** The entries of the table, by position. */
  lemma TableAt(j: nat)
    ensures |Table()| == |Pages| + 2
    ensures j == 0 ==> Table()[j] == Matched(LoginPath, false, None)
    ensures j == 1 ==> Table()[j] == Matched(RootPath, true, Some(DashboardPath))
    ensures 2 <= j < |Pages| + 2 ==> Table()[j] == Matched(Pages[j - 2], true, None)
  {
    TableContents();
  }

  /** A spelling of /login resolves to the login record. */
  lemma LookupLogin(path: string)
    requires Key(path) == LoginPath
    ensures Lookup(path) == Some(Matched(LoginPath, false, None))
  {
    TableAt(0);
    FindEntryFirst(Table(), Key(path), 0);
  }

  /** '/' and the empty path resolve to the layout's redirecting child. */
  lemma LookupRoot(path: string)
    requires Key(path) == ""
    ensures Lookup(path) == Some(Matched(RootPath, true, Some(DashboardPath)))
  {
    TableAt(0);
    TableAt(1);
    FindEntryFirst(Table(), Key(path), 1);
  }

  /** The pages are neither /login nor '/', so each is its own record key. */
  lemma PagesApart()
    ensures LoginPath !in Pages && "" !in Pages
    ensures forall i :: 0 <= i < |Pages| ==> RecordKey(Pages[i]) == Pages[i]
  {
  }

  /** A spelling of a page resolves to that page, which requires authentication. */
  lemma LookupPage(path: string)
    requires Key(path) in Pages
    ensures Lookup(path) == Some(Matched(Key(path), true, None))
  {
    var t := Table();
    PagesApart();
    var i :| 0 <= i < |Pages| && Pages[i] == Key(path);
    TableAt(i + 2);
    assert t[i + 2] in t;
    var j :| 0 <= j < |t| && t[j] == Lookup(path).value;
    TableAt(j);
  }

  /** Any other path resolves to nothing. */
  lemma LookupNone(path: string)
    requires Key(path) != LoginPath && Key(path) != "" && Key(path) !in Pages
    ensures Lookup(path).None?
  {
    var t := Table();
    if Lookup(path).Some? {
      var j :| 0 <= j < |t| && t[j] == Lookup(path).value;
      TableAt(j);
    }
  }

  /** What every path resolves to, by its key: /login, the redirecting '/', a page, or nothing. */
  lemma LookupCases(path: string)
    ensures Key(path) == LoginPath ==> Lookup(path) == Some(Matched(LoginPath, false, None))
    ensures Key(path) == "" ==> Lookup(path) == Some(Matched(RootPath, true, Some(DashboardPath)))
    ensures Key(path) in Pages ==> Lookup(path) == Some(Matched(Key(path), true, None))
    ensures Key(path) != LoginPath && Key(path) != "" && Key(path) !in Pages ==> Lookup(path).None?
  {
    if Key(path) == LoginPath {
      LookupLogin(path);
    } else if Key(path) == "" {
      LookupRoot(path);
    } else if Key(path) in Pages {
      LookupPage(path);
    } else {
      LookupNone(path);
    }
  }

  /** Capitals and a trailing '/' change nothing: "/Dashboard/" is the Dashboard route. */
  lemma VariantResolvesAlike()
    ensures Lookup("/Dashboard/") == Some(Matched(DashboardPath, true, None))
  {
    var p := "/Dashboard/";
    assert ToLower(p) == DashboardPath + "/";
    assert Key(p) == DashboardPath;
    LookupPage(p);
  }

  // ---------------------------------------------------------------------------
  // The guard

  /** What `beforeEach` does with a navigation. */
  datatype Decision = Proceed | RedirectTo(target: string)

  /**
   * beforeEach: a route requiring authentication without a session goes to
   * /login; /login with a session goes to '/'; everything else proceeds.
   */
  function Guard(requiresAuth: bool, path: string, loggedIn: bool): (d: Decision)
    ensures d == RedirectTo(LoginPath) <==> requiresAuth && !loggedIn
    ensures d == RedirectTo(RootPath) <==> (!requiresAuth || loggedIn) && path == LoginPath && loggedIn
    ensures d == Proceed <==> (!requiresAuth || loggedIn) && !(path == LoginPath && loggedIn)
  {
    if requiresAuth && !loggedIn then RedirectTo(LoginPath)
    else if path == LoginPath && loggedIn then RedirectTo(RootPath)
    else Proceed
  }

  /** One navigation step: a record redirect first, then the guard; or the page is shown. */
  datatype Step = Landed(at: string) | Redirected(target: string)

  /**
   * An unmatched path has an empty `meta`, so its `requiresAuth` is falsy and
   * the guard lets it through to an empty view. The guard compares `to.path`,
   * the path as written, with '/login'.
   */
  function NavigationStep(path: string, loggedIn: bool): (s: Step)
    ensures s.Landed? ==> s.at == path
    ensures s.Redirected? ==> s.target == LoginPath || s.target == RootPath || s.target == DashboardPath
  {
    var m := Lookup(path);
    if m.Some? && m.value.redirect.Some? then
      LookupCases(path);
      Redirected(m.value.redirect.value)
    else
      var requiresAuth := m.Some? && m.value.requiresAuth;
      match Guard(requiresAuth, path, loggedIn)
      case Proceed => Landed(path)
      case RedirectTo(t) => Redirected(t)
  }

  /**
   * Follow steps until a page is shown; None when `fuel` steps did not
   * suffice (a redirect loop would always give None). A page shown is one
   * where navigation stops: navigating to it again shows it again.
   */
  function Navigate(path: string, loggedIn: bool, fuel: nat): (r: Option<string>)
    ensures r.Some? ==> NavigationStep(r.value, loggedIn) == Landed(r.value)
    decreases fuel
  {
    if fuel == 0 then None
    else match NavigationStep(path, loggedIn)
      case Landed(at) => Some(at)
      case Redirected(t) => Navigate(t, loggedIn, fuel - 1)
  }

  /** Whether the page at `path` may be shown to a visitor with or without a session. */
  predicate Allowed(path: string, loggedIn: bool) {
    loggedIn || Lookup(path).None? || !Lookup(path).value.requiresAuth
  }

  // ---------------------------------------------------------------------------
  // Properties

  /** Only the layout's pages require authentication; /login, however written, does not. */
  lemma OnlyLayoutRequiresAuth(path: string)
    requires Lookup(path).Some?
    ensures Lookup(path).value.requiresAuth <==> Key(path) != LoginPath
  {
    LookupCases(path);
  }

  /** The layout's empty child sends '/' (or an empty path) on to '/dashboard', before any guard and with or without a session. */
  lemma RootRedirectsToDashboard(path: string, loggedIn: bool)
    requires Key(path) == ""
    ensures NavigationStep(path, loggedIn) == Redirected(DashboardPath)
  {
    LookupRoot(path);
  }

  /** /login shows the login page without a session and sends to '/' with one. */
  lemma LoginStep(loggedIn: bool)
    ensures NavigationStep(LoginPath, loggedIn) == if loggedIn then Redirected(RootPath) else Landed(LoginPath)
  {
    var p := LoginPath;
    KeyFacts();
    LookupLogin(p);
  }

  /** /dashboard shows the dashboard with a session and sends to /login without one. */
  lemma DashboardStep(loggedIn: bool)
    ensures NavigationStep(DashboardPath, loggedIn) == if loggedIn then Landed(DashboardPath) else Redirected(LoginPath)
  {
    var p := DashboardPath;
    KeyFacts();
    LookupPage(p);
  }

  /** /login with a session goes to '/', which lands on '/dashboard' in the end. */
  lemma LoginWhileLoggedInLandsOnDashboard()
    ensures NavigationStep(LoginPath, true) == Redirected(RootPath)
    ensures Navigate(LoginPath, true, 3) == Some(DashboardPath)
  {
    KeyFacts();
    LoginStep(true);
    RootRedirectsToDashboard(RootPath, true);
    DashboardStep(true);
  }

  /**
   * The guard's second test is on the path as written: another spelling of
   * /login ("/Login", "/login/") shows the login page even with a session.
   */
  lemma LoginVariantShownWithSession(path: string)
    requires Key(path) == LoginPath && path != LoginPath
    ensures NavigationStep(path, true) == Landed(path)
  {
    LookupLogin(path);
  }

  /** Without a session every protected path, '/' and every spelling of a page included, ends on /login. */
  lemma LoggedOutEndsOnLogin(path: string)
    requires Lookup(path).Some? && Lookup(path).value.requiresAuth
    ensures Navigate(path, false, 3) == Some(LoginPath)
  {
    LookupCases(path);
    LoginStep(false);
    if Key(path) == "" {
      RootRedirectsToDashboard(path, false);
      DashboardStep(false);
      assert Navigate(DashboardPath, false, 2) == Some(LoginPath);
    } else {
      assert NavigationStep(path, false) == Redirected(LoginPath);
    }
  }

  /** A spelling of /dashboard is protected like /dashboard: without a session it ends on /login. */
  lemma DashboardVariantNeedsSession(path: string)
    requires Key(path) == DashboardPath
    ensures Navigate(path, false, 3) == Some(LoginPath)
  {
    assert Pages[0] == DashboardPath;
    LookupPage(path);
    LoggedOutEndsOnLogin(path);
  }

  /** "/dashboard/" and "/Dashboard" are such spellings. */
  lemma DashboardVariants()
    ensures Navigate("/dashboard/", false, 3) == Some(LoginPath)
    ensures Navigate("/Dashboard", false, 3) == Some(LoginPath)
  {
    var slashed, capital := "/dashboard/", "/Dashboard";
    assert ToLower(slashed) == slashed;
    assert ToLower(capital) == DashboardPath;
    DashboardVariantNeedsSession(slashed);
    DashboardVariantNeedsSession(capital);
  }

  /**
   * No redirect loop: from any path, logged in or not, navigation shows a page
   * within three steps, and that page is one the visitor may see.
   */
  lemma NavigationTerminates(path: string, loggedIn: bool)
    ensures Navigate(path, loggedIn, 3).Some?
    ensures Allowed(Navigate(path, loggedIn, 3).value, loggedIn)
  {
    LookupCases(path);
    if Lookup(path).Some? && Lookup(path).value.requiresAuth && !loggedIn {
      LoggedOutEndsOnLogin(path);
      LoginStep(false);
      KeyFacts();
      LookupLogin(LoginPath);
    } else if Key(path) == "" {
      RootRedirectsToDashboard(path, loggedIn);
      DashboardStep(loggedIn);
    } else if path == LoginPath && loggedIn {
      LoginWhileLoggedInLandsOnDashboard();
    } else {
      assert NavigationStep(path, loggedIn) == Landed(path);
    }
  }
}
