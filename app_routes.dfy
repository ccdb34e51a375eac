/**
 * The application's route table (src/App.jsx): three public pages, three
 * dashboards each behind the guard with one admitted role, a redirect from
 * `/` and a catch-all redirect to the login page. Paths are matched exactly.
 */
module AppRoutes {
  import opened Wrappers
  import opened Roles
  import ProtectedRoute

  datatype Page =
    | LoginPage | CreateAccountPage | UnauthorizedPage
    | SuperAdminDashboard | AdminDashboard | ClientDashboard

  datatype Route =
    | Public(page: Page)
    | Guarded(allowedRoles: seq<string>, page: Page)
    | Navigate(to: string)

  /** The paths the table lists; every other path meets the catch-all. */
  const ListedPaths: seq<string> :=
    ["/login", "/create-account", "/unauthorized",
     "/super-admin/dashboard", "/admin/dashboard", "/client/dashboard", "/"]

  function RouteFor(path: string): (r: Route)
    ensures path !in ListedPaths ==> r == Navigate(ProtectedRoute.LoginPath)
    ensures r.Guarded? ==> |r.allowedRoles| == 1
  {
    if path == "/login" then Public(LoginPage)
    else if path == "/create-account" then Public(CreateAccountPage)
    else if path == "/unauthorized" then Public(UnauthorizedPage)
    else if path == "/super-admin/dashboard" then Guarded([SuperAdmin], SuperAdminDashboard)
    else if path == "/admin/dashboard" then Guarded([Admin], AdminDashboard)
    else if path == "/client/dashboard" then Guarded([Client], ClientDashboard)
    else if path == "/" then Navigate(ProtectedRoute.LoginPath)
    else Navigate(ProtectedRoute.LoginPath)
  }

  /** What the guard's `useAuth` hook supplies. */
  datatype AuthState = AuthState(loading: bool, isAuthenticated: bool, profile: Option<Profile>)

  /** What a visit to a path puts on screen. */
  datatype Screen = Shows(page: Page) | Spinner | Redirect(to: string)

  /**
   * A visit either shows a page, shows the guard's spinner, or redirects to
   * the login or unauthorized page; a guarded page shows only to a signed-in,
   * loaded user.
   */
  function Visit(path: string, auth: AuthState): (screen: Screen)
    ensures screen.Redirect? ==> screen.to == ProtectedRoute.LoginPath || screen.to == ProtectedRoute.UnauthorizedPath
    ensures screen.Spinner? ==> auth.loading
    ensures screen.Shows? && RouteFor(path).Guarded? ==> !auth.loading && auth.isAuthenticated
  {
    match RouteFor(path)
    case Public(page) => Shows(page)
    case Navigate(to) => Redirect(to)
    case Guarded(roles, page) =>
      match ProtectedRoute.Decide(auth.loading, auth.isAuthenticated, auth.profile, roles)
      case Spinner => Spinner
      case RedirectTo(to) => Redirect(to)
      case RenderChildren => Shows(page)
  }

  /** A signed-in, loaded user whose profile is present and truthily active. */
  predicate SignedInActive(auth: AuthState)
  {
    !auth.loading && auth.isAuthenticated && auth.profile.Some? && IsTruthy(auth.profile.value.isActive)
  }

  /** The login, account-creation and unauthorized pages show for everyone, signed in or not. */
  lemma PublicPagesUnguarded(auth: AuthState)
    ensures Visit("/login", auth) == Shows(LoginPage)
    ensures Visit("/create-account", auth) == Shows(CreateAccountPage)
    ensures Visit("/unauthorized", auth) == Shows(UnauthorizedPage)
  {
  }

  /** Each dashboard admits exactly its one role; any other role is sent to the unauthorized page. */
  lemma DashboardsAdmitOneRole(auth: AuthState)
    requires SignedInActive(auth)
    ensures Visit("/super-admin/dashboard", auth) ==
      if auth.profile.value.role == SuperAdmin then Shows(SuperAdminDashboard) else Redirect(ProtectedRoute.UnauthorizedPath)
    ensures Visit("/admin/dashboard", auth) ==
      if auth.profile.value.role == Admin then Shows(AdminDashboard) else Redirect(ProtectedRoute.UnauthorizedPath)
    ensures Visit("/client/dashboard", auth) ==
      if auth.profile.value.role == Client then Shows(ClientDashboard) else Redirect(ProtectedRoute.UnauthorizedPath)
  {
  }

  /** A super admin is kept out of the admin and client dashboards. */
  lemma SuperAdminKeptOutOfOtherDashboards(auth: AuthState)
    requires SignedInActive(auth) && auth.profile.value.role == SuperAdmin
    ensures Visit("/admin/dashboard", auth) == Redirect(ProtectedRoute.UnauthorizedPath)
    ensures Visit("/client/dashboard", auth) == Redirect(ProtectedRoute.UnauthorizedPath)
  {
  }

  /** The root path and every unlisted path redirect to the login page, whoever asks. */
  lemma UnlistedPathsGoToLogin(path: string, auth: AuthState)
    requires path == "/" || path !in ListedPaths
    ensures Visit(path, auth) == Redirect(ProtectedRoute.LoginPath)
  {
  }
}
