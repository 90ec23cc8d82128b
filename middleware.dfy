/**
 * The route guard in front of the dashboard: a request under "/dashboard"
 * goes through only with a session token whose role is "COACH"; every other
 * such request is sent to the login page.
 *
 * Reading and decoding the token from the request is not part of the model:
 * the guard takes the decoded token, or `None` when there is none.
 */
module Middleware {
  import opened Common
  import NextAuthOptions
  import Sidebar
  import ChangePasswordPage

  datatype Decision = Redirect(to: string) | Next

  const CoachRole := "COACH"

  /** The guard on a matched request. */
  function Guard(token: Option<NextAuthOptions.TokenClaims>): (r: Decision)
    ensures r.Next? <==> token.Some? && token.value.role == Some(CoachRole)
    ensures r.Redirect? ==> r.to == NextAuthOptions.LoginPage
  {
    if token.None? then Redirect(NextAuthOptions.LoginPage)
    else if token.value.role.None? || token.value.role.value == "" || token.value.role.value != CoachRole
    then Redirect(NextAuthOptions.LoginPage)
    else Next
  }

  /** The matcher "/dashboard/:path*": the dashboard itself and every path below it. */
  predicate Matched(path: string)
  {
    path == "/dashboard" || StartsWith(path, "/dashboard/")
  }

  /** A request: guarded when its path is matched, passed through otherwise. */
  function Handle(path: string, token: Option<NextAuthOptions.TokenClaims>): (r: Decision)
    ensures !Matched(path) ==> r == Next
    ensures Matched(path) ==> r == Guard(token)
  {
    if Matched(path) then Guard(token) else Next
  }

  /** Only the role decides: two tokens with the same role get the same answer. */
  lemma OnlyRoleMatters(a: NextAuthOptions.TokenClaims, b: NextAuthOptions.TokenClaims)
    requires a.role == b.role
    ensures Guard(Some(a)) == Guard(Some(b))
  {
  }

  /**
   * A coach who has just signed in passes the guard; a signed-in user with
   * any other role is sent to the login page.
   */
  lemma SignedInCoachPasses(c: NextAuthOptions.TokenClaims, u: NextAuthOptions.AuthUser)
    ensures Guard(Some(NextAuthOptions.AfterJwt(c, Some(u)))).Next? <==> u.role == CoachRole
  {
  }

  /** Every page the sidebar can highlight lies behind the guard. */
  lemma SidebarPagesGuarded(path: string, i: nat)
    requires i < |Sidebar.Navigation| && Sidebar.IsActive(Sidebar.Navigation[i], path)
    ensures Matched(path)
    ensures Handle(path, None) == Redirect(NextAuthOptions.LoginPage)
  {
    if i != 0 {
      // each other href starts with "/dashboard/", and so does the path
      var h := Sidebar.Navigation[i].href;
      assert h[..11] == "/dashboard/";
      assert path[..11] == path[..|h|][..11];
    }
  }

  /**
   * The route the change-password page navigates to lies outside the guarded
   * area and highlights no sidebar entry; the settings page the sidebar links
   * to is "/dashboard/settings".
   */
  lemma SettingsRouteOutsideDashboard()
    ensures !Matched(ChangePasswordPage.SettingsRoute)
    ensures Sidebar.ActiveEntries(ChangePasswordPage.SettingsRoute) == {}
    ensures Sidebar.Navigation[3].href == "/dashboard/settings"
  {
    // every href is longer than the route, so none is a prefix of it
    var r := ChangePasswordPage.SettingsRoute;
    assert r[1] == 's';
    forall i: nat | i < |Sidebar.Navigation|
      ensures !Sidebar.IsActive(Sidebar.Navigation[i], r)
    {
      assert |Sidebar.Navigation[i].href| > |r|;
    }
  }
}
