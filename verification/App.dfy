/** Route selection and the authorization gate (src/App.tsx): which screen a
    request for a path renders, given the session store's state. */
module App {
  import opened Wrappers
  import opened Types

  /** The paths the router knows; every other path is `Unmatched`.
      `ClientDetail` stands for any `/clients/:id`. */
  datatype Path =
    | Login | SignUp | ForgotPassword
    | Dashboard | ClientList | ClientDetail | Documents | Tasks | Compliance
    | Workpapers | Settings | Users | ClientPortal | Unmatched

  /** The page components a route can render. */
  datatype Page =
    | LoginPage | SignUpPage | ForgotPasswordPage
    | DashboardPage | ClientsPage | ClientDetailPage | DocumentsPage | TasksPage
    | CompliancePage | WorkpapersPage | SettingsPage | UserManagementPage | ClientPortalPage

  /** `ProtectedRoute`'s decision: render the children or `<Navigate to=… />`. */
  datatype Gate = Admit | Deny(target: Path)

  /** What `AppRoutes` renders for a request: the loading skeleton, a page, or a redirect. */
  datatype Screen = Loading | Show(page: Page) | Redirect(target: Path)

  /** `ProtectedRoute` (`allowedRoles` defaults to `[]`); `user` is the profile's role, if a profile is loaded. */
  function ProtectedRoute(hasSession: bool, user: Option<Role>, allowedRoles: seq<Role>): (g: Gate)
    ensures !hasSession ==> g == Deny(Login)
    ensures hasSession ==>
      (g.Deny? <==> user.Some? && |allowedRoles| > 0 && user.value !in allowedRoles)
    ensures hasSession && g.Deny? ==>
      g.target == (if user.value == Client then ClientPortal else Dashboard)
  {
    if !hasSession then Deny(Login)
    else if user.Some? && |allowedRoles| > 0 && user.value !in allowedRoles then
      Deny(if user.value == Client then ClientPortal else Dashboard)
    else Admit
  }

  /** An empty role list admits every session; so does a session whose profile is not loaded. */
  lemma ProtectedRouteAdmits(user: Option<Role>, allowedRoles: seq<Role>)
    requires allowedRoles == [] || user.None?
    ensures ProtectedRoute(true, user, allowedRoles) == Admit
  {
  }

  /** The page a staff-area route renders and the roles it is restricted to. */
  function StaffRoute(path: Path): Option<(Page, seq<Role>)>
  {
    match path
    case Dashboard => Some((DashboardPage, []))
    case ClientList => Some((ClientsPage, [Admin, Manager, Staff]))
    case ClientDetail => Some((ClientDetailPage, [Admin, Manager, Staff]))
    case Documents => Some((DocumentsPage, []))
    case Tasks => Some((TasksPage, []))
    case Compliance => Some((CompliancePage, []))
    case Workpapers => Some((WorkpapersPage, [Admin, Manager, Staff]))
    case Settings => Some((SettingsPage, []))
    case Users => Some((UserManagementPage, [Admin]))
    case _ => None
  }

  /** `AppRoutes`: the screen rendered for a request of `path`. */
  function AppRoutes(loading: bool, hasSession: bool, user: Option<Role>, path: Path): (s: Screen)
    ensures loading <==> s == Loading
  {
    if loading then Loading
    else if !hasSession then
      match path
      case Login => Show(LoginPage)
      case SignUp => Show(SignUpPage)
      case ForgotPassword => Show(ForgotPasswordPage)
      case _ => Redirect(Login)
    else if user == Some(Client) then
      if path == ClientPortal then
        match ProtectedRoute(hasSession, user, [])
        case Admit => Show(ClientPortalPage)
        case Deny(target) => Redirect(target)
      else Redirect(ClientPortal)
    else
      match StaffRoute(path)
      case None => Redirect(Dashboard)
      case Some((page, allowed)) =>
        match ProtectedRoute(hasSession, user, allowed)
        case Admit => Show(page)
        case Deny(target) => Redirect(target)
  }

  /** Signed out, only the three public pages render; every other path goes to `/login`. */
  lemma SignedOutArea(user: Option<Role>, path: Path)
    ensures var s := AppRoutes(false, false, user, path);
      && (s.Show? <==> path in {Login, SignUp, ForgotPassword})
      && (!s.Show? ==> s == Redirect(Login))
  {
  }

  /** A client reaches only `/client-portal`; every other path goes there. */
  lemma ClientArea(path: Path)
    ensures var s := AppRoutes(false, true, Some(Client), path);
      && (s.Show? <==> path == ClientPortal)
      && (s.Show? ==> s.page == ClientPortalPage)
      && (!s.Show? ==> s == Redirect(ClientPortal))
  {
  }

  /** In the staff area (a non-client role or no profile): `/users` admits only admin, the
      client and workpaper routes admit admin, manager and staff, the rest admit everyone,
      and `/login`, `/signup` and unknown paths go to `/dashboard`. */
  lemma StaffArea(user: Option<Role>, path: Path)
    requires user != Some(Client)
    ensures var s := AppRoutes(false, true, user, path);
      && (path in {Login, SignUp, ForgotPassword, ClientPortal, Unmatched} ==> s == Redirect(Dashboard))
      && (path == Users ==> (s.Show? <==> user.None? || user == Some(Admin)))
      && (path in {ClientList, ClientDetail, Workpapers} ==> s.Show?)
      && (path in {Dashboard, Documents, Tasks, Compliance, Settings} ==> s.Show?)
      && (!s.Show? ==> s == Redirect(Dashboard))
  {
  }

  /** A manager or staff member asking for `/users` ends at `/dashboard`. */
  lemma NonAdminUsersGoesToDashboard(role: Role)
    requires role == Manager || role == Staff
    ensures AppRoutes(false, true, Some(role), Users) == Redirect(Dashboard)
    ensures AppRoutes(false, true, Some(role), Dashboard) == Show(DashboardPage)
  {
  }

  /** An admin reaches every staff route. */
  lemma AdminReachesStaffRoutes(path: Path)
    requires StaffRoute(path).Some?
    ensures AppRoutes(false, true, Some(Admin), path) == Show(StaffRoute(path).value.0)
  {
  }

  /** Redirects settle after one hop: the target of any redirect renders a page. */
  lemma RedirectTargetsRender(hasSession: bool, user: Option<Role>, path: Path)
    ensures var s := AppRoutes(false, hasSession, user, path);
      s.Redirect? ==> AppRoutes(false, hasSession, user, s.target).Show?
  {
  }
}
