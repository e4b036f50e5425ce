/**
 * The route guard and the route table (App.tsx).
 */
module Routes {
  import opened Wrappers
  import opened Domain

  datatype Page = AuthScreen | ClientDashboardPage | ProviderDashboardPage

  /** What a path shows: the spinner, a redirect, or a page. */
  datatype Screen = Spinner | RedirectTo(path: string) | Show(page: Page)

  /**
   * `ProtectedRoute`: the spinner while the session loads; without a user, or
   * with a user whose role is not the required one, back to "/"; otherwise the page.
   * An empty required role requires nothing, as in JavaScript.
   */
  function Guard(loading: bool, user: Option<User>, allowedRole: string, page: Page): (r: Screen)
    ensures loading ==> r == Spinner
    ensures !loading && user.None? ==> r == RedirectTo("/")
    ensures !loading && user.Some? && allowedRole != "" && user.value.role != allowedRole ==> r == RedirectTo("/")
    ensures r == Show(page) <==> !loading && user.Some? && (allowedRole == "" || user.value.role == allowedRole)
    ensures r in {Spinner, RedirectTo("/"), Show(page)}
  {
    if loading then Spinner
    else if user.None? then RedirectTo("/")
    else if allowedRole != "" && user.value.role != allowedRole then RedirectTo("/")
    else Show(page)
  }

  /** The route table: "/" is the sign-in page, two guarded dashboards, and every other path goes to "/". */
  function Route(path: string, loading: bool, user: Option<User>): (r: Screen)
    ensures r == Show(AuthScreen) <==> path == "/"
    ensures r == Spinner ==> loading
  {
    if path == "/" then Show(AuthScreen)
    else if path == "/client-dashboard" then Guard(loading, user, "CLIENT", ClientDashboardPage)
    else if path == "/provider-dashboard" then Guard(loading, user, "PROVIDER", ProviderDashboardPage)
    else RedirectTo("/")
  }

  /**
   * A dashboard is shown only to a loaded user of its role, and each page is
   * reachable from exactly one path; the admin dashboard has no route.
   */
  lemma RouteTableAccess(path: string, loading: bool, user: Option<User>)
    ensures Route(path, loading, user) == Show(ClientDashboardPage) <==>
      path == "/client-dashboard" && !loading && user.Some? && user.value.role == "CLIENT"
    ensures Route(path, loading, user) == Show(ProviderDashboardPage) <==>
      path == "/provider-dashboard" && !loading && user.Some? && user.value.role == "PROVIDER"
    ensures path !in {"/", "/client-dashboard", "/provider-dashboard"} ==> Route(path, loading, user) == RedirectTo("/")
    ensures Route("/admin-dashboard", loading, user) == RedirectTo("/")
  {
  }
}
