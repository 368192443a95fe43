/** The navigation bar: where the dashboard link points, which badges
    and links show, and logging out. */
module Navbar {
  import opened Types
  import App

  /** `getDashboardLink`: home without a user, otherwise the user's own dashboard. */
  function DashboardLink(user: Option<User>): (path: string)
    ensures user.None? ==> path == "/"
    ensures user.Some? && user.value.role == Admin ==> path == "/admin-dashboard"
    ensures user.Some? && user.value.role == Provider ==> path == "/provider-dashboard"
    ensures user.Some? && user.value.role == Customer ==> path == "/user-dashboard"
  {
    if user.None? then "/"
    else match user.value.role
      case Admin => "/admin-dashboard"
      case Provider => "/provider-dashboard"
      case Customer => "/user-dashboard"
  }

  /** The link goes exactly where `ProtectedRoute` would send the same user on a role mismatch, so
      following it renders the dashboard. */
  lemma LinkAgreesWithRouter(u: User, other: Role)
    requires other != u.role
    ensures App.ProtectedRoute(false, Some(u), Some(other)) == App.RedirectTo(DashboardLink(Some(u)))
    ensures App.Screen(DashboardLink(Some(u)), false, Some(u)) == App.Render
  {
    App.OwnDashboardRenders(u);
  }

  /** The dashboard link is rendered only for a signed-in user, so it never points home. */
  function ShowDashboardLink(user: Option<User>): (show: bool)
    ensures show <==> user.Some?
    ensures show ==> DashboardLink(user) != "/" && App.RequiredRole(DashboardLink(user)) == Some(user.value.role)
  {
    user.Some?
  }

  /** The "unverified" badge. */
  function ShowUnverifiedBadge(user: Option<User>): (show: bool)
    ensures show <==> user.Some? && !user.value.verified
  {
    match user
    case None => false
    case Some(u) => !u.verified
  }

  /** The effects the bar issues, in order. */
  datatype Effect = SignOut | Navigate(path: string)

  class NavbarState {
    var effects: seq<Effect>

    constructor ()
      ensures effects == []
    {
      effects := [];
    }

    /** `handleLogout`: sign out, and only then go home. */
    method Logout()
      modifies this`effects
      ensures effects == old(effects) + [SignOut, Navigate("/")]
    {
      effects := effects + [SignOut];
      effects := effects + [Navigate("/")];
    }
  }
}
