/**
 * The routes of `src/App.tsx`: the two guards as decisions over the auth
 * context's `(isLoading, isAuthenticated)`, and the route table with its
 * catch-all redirect.
 */
module App {

  const HomePath := "/"
  const LoginPath := "/login"

  datatype Page = HomePage | LoginPage

  /** What a route renders: the loading screen, its page, or a `<Navigate replace>` to another path. */
  datatype Screen = LoadingScreen | Render(page: Page) | Navigate(to: string)

  /** Renders its page only when authenticated; otherwise sends the user to /login. */
  function ProtectedRoute(page: Page, isLoading: bool, isAuthenticated: bool): (screen: Screen)
    ensures screen == LoadingScreen <==> isLoading
    ensures screen == Render(page) <==> !isLoading && isAuthenticated
    ensures screen.Navigate? ==> screen.to == LoginPath
  {
    if isLoading then LoadingScreen
    else if isAuthenticated then Render(page)
    else Navigate(LoginPath)
  }

  /** Renders its page only when not authenticated; otherwise sends the user home. */
  function PublicRoute(page: Page, isLoading: bool, isAuthenticated: bool): (screen: Screen)
    ensures screen == LoadingScreen <==> isLoading
    ensures screen == Render(page) <==> !isLoading && !isAuthenticated
    ensures screen.Navigate? ==> screen.to == HomePath
  {
    if isLoading then LoadingScreen
    else if isAuthenticated then Navigate(HomePath)
    else Render(page)
  }

  /** The route table: "/" is guarded home, "/login" the public login page, any other path redirects home. */
  function Route(path: string, isLoading: bool, isAuthenticated: bool): (screen: Screen)
    ensures screen.Render? ==> (screen.page == HomePage <==> path == HomePath)
    ensures screen.Render? ==> path == HomePath || path == LoginPath
    ensures screen.Navigate? ==> screen.to == HomePath || screen.to == LoginPath
    ensures path != HomePath && path != LoginPath ==> screen == Navigate(HomePath)
  {
    if path == HomePath then ProtectedRoute(HomePage, isLoading, isAuthenticated)
    else if path == LoginPath then PublicRoute(LoginPage, isLoading, isAuthenticated)
    else Navigate(HomePath)
  }

  /** The screen reached from `path` after following at most `hops` redirects. */
  function Follow(path: string, isLoading: bool, isAuthenticated: bool, hops: nat): Screen
    decreases hops
  {
    match Route(path, isLoading, isAuthenticated)
    case Navigate(to) => if hops == 0 then Navigate(to) else Follow(to, isLoading, isAuthenticated, hops - 1)
    case other => other
  }

  /** While loading, both guards show the loading screen; otherwise exactly one of them renders its page. */
  lemma GuardsPartition(isLoading: bool, isAuthenticated: bool)
    ensures isLoading ==>
      ProtectedRoute(HomePage, isLoading, isAuthenticated) == LoadingScreen &&
      PublicRoute(LoginPage, isLoading, isAuthenticated) == LoadingScreen
    ensures !isLoading ==>
      (ProtectedRoute(HomePage, isLoading, isAuthenticated).Render? <==> isAuthenticated) &&
      (PublicRoute(LoginPage, isLoading, isAuthenticated).Render? <==> !isAuthenticated)
  {
  }

  /**
   * Routing never loops: from any path, at most two redirects reach the
   * loading screen, the home page (authenticated) or the login page (not).
   */
  lemma EveryPathSettles(path: string, isLoading: bool, isAuthenticated: bool)
    ensures var screen := Follow(path, isLoading, isAuthenticated, 2);
      screen == if isLoading then LoadingScreen
                else if isAuthenticated then Render(HomePage)
                else Render(LoginPage)
  {
  }
}
