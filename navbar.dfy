/**
 * The navigation bar of src/components/common/Navbar.js: when it shows,
 * which links it offers, and its logout handler.
 */
module Navbar {
  import opened Common
  import opened AuthContext
  import opened ProtectedRoute

  /** `auth.user && auth.token`: the bar renders nothing otherwise. */
  predicate Visible(auth: Auth) {
    auth.user.Some? && Truthy(auth.token)
  }

  /** `` `/profile/${userId}` `` with the stored id, which reads "null" when none is stored. */
  function ProfileLink(storedUserId: Option<string>): (link: string)
    ensures |link| >= 9 && link[..9] == "/profile/"
    ensures storedUserId.Some? ==> link[9..] == storedUserId.value
    ensures storedUserId.None? ==> link[9..] == "null"
  {
    "/profile/" + storedUserId.GetOr("null")
  }

  /** The link targets of a visible bar, in order; the Reports link only for role "admin". */
  function Links(auth: Auth, storedUserId: Option<string>): (links: Option<seq<string>>)
    ensures links.Some? <==> Visible(auth)
    ensures links.Some? ==> ("/admin/reports" in links.value <==> auth.user.value.role == Some("admin"))
    ensures links.Some? ==> ProfileLink(storedUserId) in links.value && "/chat" in links.value
  {
    if !Visible(auth) then None
    else
      var profile := ProfileLink(storedUserId);
      assert profile != "/admin/reports" by {
        assert profile[1] == profile[..9][1] == 'p';
        assert "/admin/reports"[1] == 'a';
      }
      Some(["/dashboard", "/explore", "/people", "/chat"]
           + (if auth.user.value.role == Some("admin") then ["/admin/reports"] else [])
           + [profile, "/saved/quizzes"])
  }

  /**
   * The bar is shown exactly for the sessions the route guard lets through:
   * the navbar's own `user && token` test (Navbar.js:25-27) agrees with the
   * guard's `!token || !user` redirect test (ProtectedRoute.js:14-16).
   */
  lemma VisibleIffAuthenticated(auth: Auth)
    ensures Visible(auth) <==> Authenticated(auth)
  {
  }

  /** `handleLogout`: `logout()` then navigate to "/login". */
  method HandleLogout(session: Session) returns (nav: string)
    modifies session, session.store
    ensures session.View() == AfterLogout(old(session.View()))
    ensures nav == "/login"
  {
    session.Logout();
    nav := "/login";
  }

  /** After logging out the bar disappears. */
  lemma HiddenAfterLogout(v: SessionView, storedUserId: Option<string>)
    ensures Links(AfterLogout(v).auth, storedUserId).None?
  {
  }
}
