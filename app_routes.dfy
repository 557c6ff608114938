// The application shell: the loading screen shown while the first auth check
// runs, and the route table that guards each page by the session state.
module Routes {
  import opened Common

  datatype Page = HomePage | SignUpPage | LoginPage | SettingsPage | ProfilePage

  /** What the shell shows for a path. */
  datatype Screen =
    | Loading               // the spinner, instead of the navbar and the routes
    | Render(page: Page)    // the page element of the matching route
    | Redirect(to: string)  // a `<Navigate>` element
    | NoMatch               // no route matches: the routes render nothing

  /** The shell shows only the spinner while the auth check runs and nobody is logged in. */
  predicate ShowsLoader(authUser: Option<User>, isCheckingAuth: bool): (r: bool)
    ensures r ==> authUser.None?
    ensures !isCheckingAuth ==> !r
  {
    isCheckingAuth && authUser.None?
  }

  /** The shell's decision for one path. */
  function Route(path: string, authUser: Option<User>, isCheckingAuth: bool): (screen: Screen)
    ensures screen == Loading <==> ShowsLoader(authUser, isCheckingAuth)
    ensures screen == NoMatch <==>
              !ShowsLoader(authUser, isCheckingAuth) && path !in {"/", "/signup", "/login", "/settings", "/profile"}
    ensures screen.Redirect? ==> screen.to == (if authUser.Some? then "/" else "/login")
    ensures screen.Render? && screen.page in {HomePage, ProfilePage} ==> authUser.Some?
    ensures screen.Render? && screen.page in {SignUpPage, LoginPage} ==> authUser.None?
  {
    if ShowsLoader(authUser, isCheckingAuth) then Loading
    else if path == "/" then
      (if authUser.Some? then Render(HomePage) else Redirect("/login"))
    else if path == "/signup" then
      (if authUser.None? then Render(SignUpPage) else Redirect("/"))
    else if path == "/login" then
      (if authUser.None? then Render(LoginPage) else Redirect("/"))
    else if path == "/settings" then Render(SettingsPage)
    else if path == "/profile" then
      (if authUser.Some? then Render(ProfilePage) else Redirect("/login"))
    else NoMatch
  }

  /** The spinner is shown, for any path, exactly when the check runs and nobody is logged in. */
  lemma LoadingIff(path: string, authUser: Option<User>, isCheckingAuth: bool)
    ensures Route(path, authUser, isCheckingAuth) == Loading <==> isCheckingAuth && authUser.None?
  {
  }

  /** `/`: the home page for a logged-in user, otherwise a redirect to `/login`. */
  lemma RootRoute(authUser: Option<User>, isCheckingAuth: bool)
    requires !ShowsLoader(authUser, isCheckingAuth)
    ensures Route("/", authUser, isCheckingAuth) == if authUser.Some? then Render(HomePage) else Redirect("/login")
  {
  }

  /** `/signup` and `/login` render only without a session; a logged-in user is sent to `/`. */
  lemma GuestOnlyRoutes(path: string, authUser: Option<User>, isCheckingAuth: bool)
    requires path == "/signup" || path == "/login"
    requires !ShowsLoader(authUser, isCheckingAuth)
    ensures Route(path, authUser, isCheckingAuth).Render? <==> authUser.None?
    ensures authUser.Some? ==> Route(path, authUser, isCheckingAuth) == Redirect("/")
  {
  }

  /** `/settings` renders whatever the session. */
  lemma SettingsAlwaysRenders(authUser: Option<User>, isCheckingAuth: bool)
    requires !ShowsLoader(authUser, isCheckingAuth)
    ensures Route("/settings", authUser, isCheckingAuth) == Render(SettingsPage)
  {
  }

  /** `/profile`: the profile page for a logged-in user, otherwise a redirect to `/login`. */
  lemma ProfileRoute(authUser: Option<User>, isCheckingAuth: bool)
    requires !ShowsLoader(authUser, isCheckingAuth)
    ensures Route("/profile", authUser, isCheckingAuth) == if authUser.Some? then Render(ProfilePage) else Redirect("/login")
  {
  }

  /**
   * For a fixed session state, every redirect lands on a path that renders a
   * page, so there are no redirect chains and no loops.
   */
  lemma RedirectsLandOnPages(path: string, authUser: Option<User>, isCheckingAuth: bool)
    requires Route(path, authUser, isCheckingAuth).Redirect?
    ensures Route(Route(path, authUser, isCheckingAuth).to, authUser, isCheckingAuth).Render?
  {
  }

  /** The pages that need a session are reached only with one, and the guest pages only without. */
  lemma PagesMatchSession(path: string, authUser: Option<User>, isCheckingAuth: bool)
    ensures Route(path, authUser, isCheckingAuth) in {Render(HomePage), Render(ProfilePage)} ==> authUser.Some?
    ensures Route(path, authUser, isCheckingAuth) in {Render(SignUpPage), Render(LoginPage)} ==> authUser.None? && !isCheckingAuth
  {
  }
}
