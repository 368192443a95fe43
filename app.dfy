/** The router: `ProtectedRoute`'s gate in front of the three
    dashboards, the redirect away from login and registration for a
    signed-in user, and the loading gate in front of every route. */
module App {
  import opened Types

  /** What a route element renders. */
  datatype Decision = Spinner | RedirectTo(path: string) | Render | NoMatch

  /** The dashboard a role belongs on; roles other than admin and provider go to the customer's. */
  function DashboardPath(r: Role): string
  {
    match r
    case Admin => "/admin-dashboard"
    case Provider => "/provider-dashboard"
    case Customer => "/user-dashboard"
  }

  /** `ProtectedRoute`: spinner while loading, login without a user, the user's own dashboard on a role
      mismatch, the children otherwise. */
  function ProtectedRoute(loading: bool, user: Option<User>, requiredRole: Option<Role>): (d: Decision)
    ensures loading ==> d == Spinner
    ensures !loading && user.None? ==> d == RedirectTo("/login")
    ensures !loading && user.Some? && requiredRole.Some? && requiredRole.value != user.value.role ==>
      d == RedirectTo(DashboardPath(user.value.role))
    ensures d == Render <==> !loading && user.Some? && (requiredRole.None? || requiredRole.value == user.value.role)
  {
    if loading then Spinner
    else if user.None? then RedirectTo("/login")
    else if requiredRole.Some? && requiredRole.value != user.value.role then RedirectTo(DashboardPath(user.value.role))
    else Render
  }

  /** The `requiredRole` each route passes, if it is protected. */
  function RequiredRole(path: string): (r: Option<Role>)
    ensures r.Some? <==> path in {"/user-dashboard", "/provider-dashboard", "/admin-dashboard"}
  {
    if path == "/user-dashboard" then Some(Customer)
    else if path == "/provider-dashboard" then Some(Provider)
    else if path == "/admin-dashboard" then Some(Admin)
    else None
  }

  /** Each dashboard is guarded by the role it belongs to. */
  lemma DashboardGuardedByItsRole(r: Role)
    ensures RequiredRole(DashboardPath(r)) == Some(r)
  {
  }

  /** The routes that render for anyone. */
  predicate IsPublicRoute(path: string)
  {
    || path in {"/", "/services", "/payment-success", "/payment-fail", "/payment-cancel"}
    || (|path| > 6 && path[..6] == "/book/" && '/' !in path[6..])
  }

  /** `AppRoutes`: the loading gate, then the route table. */
  function Screen(path: string, loading: bool, user: Option<User>): (d: Decision)
    ensures loading ==> d == Spinner
    ensures !loading && (path == "/login" || path == "/register") ==> (d == RedirectTo("/") <==> user.Some?)
    ensures !loading && RequiredRole(path).Some? ==> d == ProtectedRoute(false, user, RequiredRole(path))
  {
    if loading then Spinner
    else if path == "/login" || path == "/register" then (if user.Some? then RedirectTo("/") else Render)
    else if RequiredRole(path).Some? then ProtectedRoute(loading, user, RequiredRole(path))
    else if IsPublicRoute(path) then Render
    else NoMatch
  }

  /** Inside the route table `ProtectedRoute` never shows its own spinner: the loading gate comes first. */
  lemma ProtectedSpinnerUnreachable(path: string, loading: bool, user: Option<User>)
    requires RequiredRole(path).Some?
    ensures Screen(path, loading, user) == Spinner <==> loading
  {
  }

  /** No redirect loop: following any redirect once lands on a page that renders. */
  lemma RedirectsSettle(path: string, user: Option<User>)
    requires Screen(path, false, user).RedirectTo?
    ensures Screen(Screen(path, false, user).path, false, user) == Render
  {
    if user.Some? {
      DashboardGuardedByItsRole(user.value.role);
    }
  }

  /** A signed-in user always reaches their own dashboard. */
  lemma OwnDashboardRenders(u: User)
    ensures Screen(DashboardPath(u.role), false, Some(u)) == Render
  {
    DashboardGuardedByItsRole(u.role);
  }
}
