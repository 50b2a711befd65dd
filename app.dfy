/**
 * The route table of src/App.js and its `RoleBasedDashboard`: which paths
 * are guarded, which need the "admin" role, and which panel the dashboard
 * shows.
 */
module App {
  import opened Common
  import opened AuthContext
  import opened ProtectedRoute

  /** The eight routes of the table, in the order declared. */
  datatype Route = Home | LoginRoute | RegisterRoute | QuizAttemptRoute | DashboardRoute
                 | CreateQuizRoute | AddQuestionsRoute | QuizResultsRoute

  /** The screen a route ends up showing. */
  datatype Screen = Placeholder | Redirect(path: string)
                  | HomePage | LoginPage | RegisterPage | QuizAttemptPage
                  | AdminPanel | UserPanel
                  | CreateQuizPage | AddQuestionsPage | QuizResultsPage

  /** How a route is wrapped: not at all, in a guard without role, or in a guard with a role. */
  datatype Protection = Unguarded | Guarded(role: Option<string>)

  const AdminRole := "admin"

  function PathOf(r: Route): string {
    match r
    case Home => "/"
    case LoginRoute => "/login"
    case RegisterRoute => "/register"
    case QuizAttemptRoute => "/quiz/:id"
    case DashboardRoute => "/dashboard"
    case CreateQuizRoute => "/admin/quiz/create"
    case AddQuestionsRoute => "/admin/quiz/:id/questions"
    case QuizResultsRoute => "/admin/quiz/:id/results"
  }

  function ProtectionOf(r: Route): Protection {
    match r
    case Home => Unguarded
    case LoginRoute => Unguarded
    case RegisterRoute => Unguarded
    case QuizAttemptRoute => Guarded(None)
    case DashboardRoute => Guarded(None)
    case CreateQuizRoute => Guarded(Some(AdminRole))
    case AddQuestionsRoute => Guarded(Some(AdminRole))
    case QuizResultsRoute => Guarded(Some(AdminRole))
  }

  /** `RoleBasedDashboard`: no user goes to "/login"; role exactly "admin" gets the admin panel. */
  function DashboardFor(auth: Auth): (s: Screen)
    ensures auth.user.None? ==> s == Redirect("/login")
    ensures auth.user.Some? ==> (s == AdminPanel <==> auth.user.value.role == Some(AdminRole))
    ensures auth.user.Some? ==> (s == UserPanel <==> auth.user.value.role != Some(AdminRole))
  {
    if auth.user.None? then Redirect("/login")
    else if auth.user.value.role == Some(AdminRole) then AdminPanel
    else UserPanel
  }

  /** The element a route renders once its guard lets it through. */
  function ElementOf(r: Route, auth: Auth): Screen {
    match r
    case Home => HomePage
    case LoginRoute => LoginPage
    case RegisterRoute => RegisterPage
    case QuizAttemptRoute => QuizAttemptPage
    case DashboardRoute => DashboardFor(auth)
    case CreateQuizRoute => CreateQuizPage
    case AddQuestionsRoute => AddQuestionsPage
    case QuizResultsRoute => QuizResultsPage
  }

  /** What the router shows for a route, given the provider's state. */
  function Render(r: Route, loading: bool, auth: Auth): (s: Screen)
    ensures ProtectionOf(r) == Unguarded ==> s == ElementOf(r, auth)
    ensures ProtectionOf(r).Guarded? && s == ElementOf(r, auth) && r != DashboardRoute ==>
      !loading && Authenticated(auth)
  {
    match ProtectionOf(r)
    case Unguarded => ElementOf(r, auth)
    case Guarded(role) =>
      match Guard(loading, auth, role)
      case ShowLoading => Placeholder
      case RedirectTo(path) => Redirect(path)
      case RenderChildren => ElementOf(r, auth)
  }

  /** An attempt page needs a signed-in user but no particular role. */
  lemma QuizNeedsNoRole(loading: bool, auth: Auth)
    ensures Render(QuizAttemptRoute, loading, auth) == QuizAttemptPage <==> !loading && Authenticated(auth)
  {
  }

  /** The three admin pages are shown only to a signed-in user whose role is exactly "admin". */
  lemma AdminPagesNeedAdmin(r: Route, loading: bool, auth: Auth)
    requires r in {CreateQuizRoute, AddQuestionsRoute, QuizResultsRoute}
    ensures Render(r, loading, auth) == ElementOf(r, auth) <==>
      !loading && Authenticated(auth) && auth.user.value.role == Some(AdminRole)
  {
  }

  /**
   * Behind its guard the dashboard's own "/login" redirect cannot fire: a
   * signed-in user sees the admin panel exactly when the role is "admin" and
   * the user panel otherwise, "moderator" included.
   */
  lemma DashboardBehindGuard(loading: bool, auth: Auth)
    ensures Render(DashboardRoute, loading, auth) in {Placeholder, Redirect("/login"), AdminPanel, UserPanel}
    ensures !loading && Authenticated(auth) ==>
      Render(DashboardRoute, loading, auth) == (if auth.user.value.role == Some(AdminRole) then AdminPanel else UserPanel)
  {
  }

  lemma ModeratorGetsUserPanel(id: Option<string>, token: string)
    requires token != ""
    ensures Render(DashboardRoute, false, Auth(Some(User(id, Some("moderator"))), Some(token))) == UserPanel
  {
  }
}
