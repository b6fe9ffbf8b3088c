/**
 * The route guard: which screen the application shows for the identity provider's flags and
 * the browser path, and where the redirects it issues end up.
 */
module App {
  import opened Wrappers

  /** The flags the guard reads: the provider's `isLoading` and `error`, and `isAuthenticated` / `isAdmin`. */
  datatype Auth = Auth(isLoading: bool, hasError: bool, isAuthenticated: bool, isAdmin: bool)

  /** `isAdmin` as the auth hook derives it: authenticated and a user object is present. */
  function IsAdmin(isAuthenticated: bool, hasUser: bool): (admin: bool)
    ensures admin <==> isAuthenticated && hasUser
  {
    isAuthenticated && hasUser
  }

  /** The flags for a session in which the provider reports a user or not. */
  function AuthOf(isLoading: bool, hasError: bool, isAuthenticated: bool, hasUser: bool): Auth {
    Auth(isLoading, hasError, isAuthenticated, IsAdmin(isAuthenticated, hasUser))
  }

  datatype AppPage = LoginPage | Dashboard | TagsPage | EvidencePage | GolfCoursesPage

  datatype Screen = Spinner | AuthError | Render(page: AppPage) | Redirect(to: string)

  /** The three pages behind the admin check, by path. */
  function AdminPage(path: string): (p: Option<AppPage>)
    ensures p.Some? <==> path in {"/tags", "/evidence", "/golf-courses"}
    ensures path == "/tags" ==> p == Some(TagsPage)
    ensures path == "/evidence" ==> p == Some(EvidencePage)
    ensures path == "/golf-courses" ==> p == Some(GolfCoursesPage)
  {
    if path == "/tags" then Some(TagsPage)
    else if path == "/evidence" then Some(EvidencePage)
    else if path == "/golf-courses" then Some(GolfCoursesPage)
    else None
  }

  /** The decision table: loading, then error, then the route table with its catch-all. */
  function Guard(a: Auth, path: string): Screen {
    if a.isLoading then Spinner
    else if a.hasError then AuthError
    else if path == "/login" then (if a.isAuthenticated then Redirect("/") else Render(LoginPage))
    else if path == "/" then (if a.isAuthenticated then Render(Dashboard) else Redirect("/login"))
    else if AdminPage(path).Some? then (if a.isAuthenticated && a.isAdmin then Render(AdminPage(path).value) else Redirect("/login"))
    else Redirect("/")
  }

  /** While the provider is loading the spinner is shown on every path; after that an error shows the error screen on every path. */
  lemma LoadingAndErrorFirst(a: Auth, path: string)
    ensures a.isLoading ==> Guard(a, path) == Spinner
    ensures !a.isLoading && a.hasError ==> Guard(a, path) == AuthError
    ensures Guard(a, path) == Spinner <==> a.isLoading
    ensures Guard(a, path) == AuthError <==> !a.isLoading && a.hasError
  {
  }

  /** `/login` sends a signed-in user home and shows the login page otherwise. */
  lemma LoginRoute(a: Auth)
    requires !a.isLoading && !a.hasError
    ensures Guard(a, "/login") == (if a.isAuthenticated then Redirect("/") else Render(LoginPage))
  {
  }

  /** `/` shows the dashboard exactly when signed in, and sends everyone else to `/login`. */
  lemma RootRoute(a: Auth)
    requires !a.isLoading && !a.hasError
    ensures Guard(a, "/") == Render(Dashboard) <==> a.isAuthenticated
    ensures !a.isAuthenticated ==> Guard(a, "/") == Redirect("/login")
  {
  }

  /** An admin page renders exactly when signed in as an admin; otherwise the guard sends the visitor to `/login`. */
  lemma AdminRoutes(a: Auth, path: string)
    requires !a.isLoading && !a.hasError && AdminPage(path).Some?
    ensures Guard(a, path).Render? <==> a.isAuthenticated && a.isAdmin
    ensures Guard(a, path).Render? ==> Guard(a, path).page == AdminPage(path).value
    ensures !(a.isAuthenticated && a.isAdmin) ==> Guard(a, path) == Redirect("/login")
  {
  }

  /** Any other path redirects to `/`. */
  lemma CatchAll(a: Auth, path: string)
    requires !a.isLoading && !a.hasError
    requires path != "/login" && path != "/" && AdminPage(path).None?
    ensures Guard(a, path) == Redirect("/")
  {
  }

  /** An admin page renders only for a session the auth hook counts as admin: signed in with a user present. */
  lemma AdminPageNeedsUser(isAuthenticated: bool, hasUser: bool, path: string)
    requires Guard(AuthOf(false, false, isAuthenticated, hasUser), path).Render?
    requires Guard(AuthOf(false, false, isAuthenticated, hasUser), path).page in {TagsPage, EvidencePage, GolfCoursesPage}
    ensures isAuthenticated && hasUser
  {
  }

  /** The screen reached by following at most `hops` redirects from `path`. */
  function Follow(a: Auth, path: string, hops: nat): Screen
    decreases hops
  {
    match Guard(a, path)
    case Redirect(to) => if hops == 0 then Redirect(to) else Follow(a, to, hops - 1)
    case s => s
  }

  /** The page a settled session lands on: the login page when signed out, the requested admin page for an admin, and the dashboard otherwise. */
  function Destination(a: Auth, path: string): AppPage {
    if !a.isAuthenticated then LoginPage
    else if AdminPage(path).Some? && a.isAdmin then AdminPage(path).value
    else Dashboard
  }

  /** Once the provider has settled without error, at most two redirects lead to a rendered page, and it is the destination. */
  lemma RedirectsSettle(a: Auth, path: string)
    requires !a.isLoading && !a.hasError
    ensures Follow(a, path, 2) == Render(Destination(a, path))
  {
    assert AdminPage("/login").None? && AdminPage("/").None?;
  }

  /** No redirect chain loops: the guard never sends a path to itself. */
  lemma NoSelfRedirect(a: Auth, path: string)
    ensures Guard(a, path).Redirect? ==> Guard(a, path).to != path
  {
  }
}
