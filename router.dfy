/** `src/router/index.ts`: the route table, the redirect of the root path, and the global
    navigation guard. */
module Router {
  import opened Remote

  /** A navigation target: its name (the root route has none) and whether its meta marks it
      as requiring authentication (a missing flag is false). */
  datatype Route = Route(path: string, name: Option<string>, requiresAuth: bool)

  /** What the guard passes to `next`: no argument, or a named route to go to instead. */
  datatype Decision = Allow | RedirectTo(target: string)

  const LoginRoute := Route("/login", Some("login"), false)
  const DashboardRoute := Route("/dashboard", Some("dashboard"), true)

  /** The named routes of the table. */
  function RouteNamed(name: string): (r: Option<Route>)
    ensures r.Some? ==> r.value.name == Some(name)
  {
    if name == "login" then Some(LoginRoute)
    else if name == "dashboard" then Some(DashboardRoute)
    else None
  }

  /** The routes reached by path. */
  function RouteAt(path: string): (r: Option<Route>)
    ensures r.Some? ==> r.value.path == path
  {
    if path == "/login" then Some(LoginRoute)
    else if path == "/dashboard" then Some(DashboardRoute)
    else None
  }

  /** The redirect of `/`: the dashboard for a signed-in user, the login page otherwise. */
  function RootRedirect(authenticated: bool): (path: string)
    ensures RouteAt(path).Some?
    ensures RouteAt(path).value.requiresAuth <==> authenticated
  {
    if authenticated then "/dashboard" else "/login"
  }

  /** `beforeEach`: a route that requires authentication sends a signed-out user to `login`;
      the login page sends a signed-in user to `dashboard`; everything else goes through. */
  function Guard(to: Route, authenticated: bool): (d: Decision)
    ensures d == Allow <==>
              (to.requiresAuth ==> authenticated) && (to.name == Some("login") ==> !authenticated)
    ensures to.requiresAuth && !authenticated ==> d == RedirectTo("login")
    ensures to.name == Some("login") && authenticated ==> d == RedirectTo("dashboard")
    ensures d.RedirectTo? ==> RouteNamed(d.target).Some?
  {
    if to.requiresAuth && !authenticated then RedirectTo("login")
    else if to.name == Some("login") && authenticated then RedirectTo("dashboard")
    else Allow
  }

  /** A signed-out user never gets onto a route that requires authentication. */
  lemma GuardProtects(to: Route, authenticated: bool)
    requires Guard(to, authenticated) == Allow && to.requiresAuth
    ensures authenticated
  {
  }

  /** A signed-in user never lands on the login page. */
  lemma GuardKeepsOffLogin(to: Route, authenticated: bool)
    requires Guard(to, authenticated) == Allow && to.name == Some("login")
    ensures !authenticated
  {
  }

  /** A redirect of the guard is accepted by the guard: one redirect always settles. */
  lemma GuardRedirectSettles(to: Route, authenticated: bool)
    requires Guard(to, authenticated).RedirectTo?
    ensures Guard(RouteNamed(Guard(to, authenticated).target).value, authenticated) == Allow
  {
  }

  /** The root redirect leads to a page the guard lets through. */
  lemma RootRedirectSettles(authenticated: bool)
    ensures Guard(RouteAt(RootRedirect(authenticated)).value, authenticated) == Allow
  {
  }
}
