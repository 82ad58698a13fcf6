/** The route table and its guards: protected routes for signed-in users (optionally of given
    user types), public routes for signed-out visitors, and the dashboard chooser. */
module AppRoutes {
  import opened Wrappers
  import opened Session
  import Constants
  import PostJob

  /** The screens the application renders. */
  datatype Page =
    | HomePage | JobListPage | JobDetailsPage(id: string) | LoginPage | RegisterPage
    | CompanyRegisterPage | CompanyDashboardPage | UserDashboardPage | PostJobPage

  /** The paths of the route table; any other path is `UnknownPath`. */
  datatype Path =
    | RootPath | JobsPath | JobPath(id: string) | LoginPath | RegisterPath
    | CompanyRegisterPath | DashboardPath | PostJobPath | UnknownPath

  /** What a route element does: render a screen, or `<Navigate to=...>`. */
  datatype View = Render(page: Page) | Redirect(to: Path)

  /** `userProfile?.userType` is one of `allowed`. */
  predicate TypeAllowed(s: Session, allowed: seq<string>)
  {
    UserType(s).Some? && UserType(s).value in allowed
  }

  /** `ProtectedRoute`: signed-out visitors go to the login page; signed-in users whose type is
      not allowed go to the dashboard; an empty list allows every signed-in user. */
  function ProtectedRoute(s: Session, allowed: seq<string>, child: Page): (v: View)
    ensures s.currentUser.None? ==> v == Redirect(LoginPath)
    ensures s.currentUser.Some? && |allowed| > 0 && !TypeAllowed(s, allowed) ==> v == Redirect(DashboardPath)
    ensures v == Render(child) <==> s.currentUser.Some? && (|allowed| == 0 || TypeAllowed(s, allowed))
  {
    if s.currentUser.None? then Redirect(LoginPath)
    else if |allowed| > 0 && !TypeAllowed(s, allowed) then Redirect(DashboardPath)
    else Render(child)
  }

  /** `PublicRoute`: the screen for signed-out visitors, the dashboard for everyone else. */
  function PublicRoute(s: Session, child: Page): (v: View)
    ensures v == Render(child) <==> s.currentUser.None?
    ensures s.currentUser.Some? ==> v == Redirect(DashboardPath)
  {
    if s.currentUser.None? then Render(child) else Redirect(DashboardPath)
  }

  /** `DashboardRouter`: the company dashboard for "company" profiles, the job seeker's
      dashboard for everyone else, a missing profile included. */
  function DashboardRouter(s: Session): (p: Page)
    ensures p == CompanyDashboardPage <==> UserType(s) == Some(Constants.CompanyType)
    ensures p != CompanyDashboardPage ==> p == UserDashboardPage
  {
    if UserType(s) == Some(Constants.CompanyType) then CompanyDashboardPage else UserDashboardPage
  }

  /** The screens only signed-out visitors see. */
  predicate IsSignInScreen(p: Page)
  {
    p == LoginPage || p == RegisterPage || p == CompanyRegisterPage
  }

  /** The screens only signed-in users see. */
  predicate IsMemberScreen(p: Page)
  {
    p == CompanyDashboardPage || p == UserDashboardPage || p == PostJobPage
  }

  /** The route table: the home page, the job list and every job's page render for everyone;
      the sign-in screens only for signed-out visitors; the dashboards and the posting screen
      only for signed-in users, the posting screen only for companies; a redirect goes to the
      login screen, a dashboard or the home page. */
  function Route(path: Path, s: Session): (v: View)
    ensures path.RootPath? || path.JobsPath? || path.JobPath? ==> v.Render?
    ensures v.Render? && IsSignInScreen(v.page) ==> s.currentUser.None?
    ensures v.Render? && IsMemberScreen(v.page) ==> s.currentUser.Some?
    ensures v == Render(PostJobPage) ==> SignedInAs(s, Constants.CompanyType)
    ensures v.Redirect? ==> v.to == LoginPath || v.to == DashboardPath || v.to == RootPath
  {
    match path
    case RootPath => Render(HomePage)
    case JobsPath => Render(JobListPage)
    case JobPath(id) => Render(JobDetailsPage(id))
    case LoginPath => PublicRoute(s, LoginPage)
    case RegisterPath => PublicRoute(s, RegisterPage)
    case CompanyRegisterPath => PublicRoute(s, CompanyRegisterPage)
    case DashboardPath => ProtectedRoute(s, [], DashboardRouter(s))
    case PostJobPath => ProtectedRoute(s, [Constants.CompanyType], PostJobPage)
    case UnknownPath => Redirect(RootPath)
  }

  /** The route table path by path: the public pages, each sign-in path's own screen for a
      signed-out visitor, the chosen dashboard for a signed-in user, and the home page for any
      unknown path. */
  lemma RouteTable(s: Session, id: string)
    ensures Route(RootPath, s) == Render(HomePage)
    ensures Route(JobsPath, s) == Render(JobListPage)
    ensures Route(JobPath(id), s) == Render(JobDetailsPage(id))
    ensures s.currentUser.None? ==>
      && Route(LoginPath, s) == Render(LoginPage)
      && Route(RegisterPath, s) == Render(RegisterPage)
      && Route(CompanyRegisterPath, s) == Render(CompanyRegisterPage)
      && Route(DashboardPath, s) == Redirect(LoginPath)
      && Route(PostJobPath, s) == Redirect(LoginPath)
    ensures s.currentUser.Some? ==>
      && Route(LoginPath, s) == Redirect(DashboardPath)
      && Route(RegisterPath, s) == Redirect(DashboardPath)
      && Route(CompanyRegisterPath, s) == Redirect(DashboardPath)
      && Route(DashboardPath, s) == Render(DashboardRouter(s))
    ensures Route(UnknownPath, s) == Redirect(RootPath)
  {
  }

  /** The screen reached from `path` following at most `hops` redirects, if any: a screen
      the route table renders for this session, the one `path` renders when it renders one. */
  function Navigate(path: Path, s: Session, hops: nat): (r: Option<Page>)
    ensures r.Some? ==> exists q :: Route(q, s) == Render(r.value)
    ensures Route(path, s).Render? ==> r == Some(Route(path, s).page)
    decreases hops
  {
    match Route(path, s)
    case Render(p) => Some(p)
    case Redirect(next) => if hops == 0 then None else Navigate(next, s, hops - 1)
  }

  /** Redirects never loop: from every path, one redirect at most reaches a screen. */
  lemma RoutesSettle(path: Path, s: Session)
    ensures Navigate(path, s, 1).Some?
  {
  }

  /** The posting screen renders exactly for signed-in companies. */
  lemma PostJobOnlyForCompanies(s: Session)
    ensures Route(PostJobPath, s) == Render(PostJobPage) <==> SignedInAs(s, Constants.CompanyType)
  {
  }

  /** A signed-in user always ends on a dashboard when asking for a sign-in screen, and a
      signed-out visitor asking for the dashboard ends on the login screen. */
  lemma SignInScreensAndDashboardExclude(s: Session)
    ensures s.currentUser.Some? ==> Navigate(LoginPath, s, 1) == Some(DashboardRouter(s))
    ensures s.currentUser.None? ==> Navigate(DashboardPath, s, 1) == Some(LoginPage)
  {
  }

  /** Wherever navigation starts, it ends on the posting screen only for a signed-in company. */
  lemma NavigationGuardsPosting(path: Path, s: Session, hops: nat)
    ensures Navigate(path, s, hops) == Some(PostJobPage) ==> SignedInAs(s, Constants.CompanyType)
  {
    if Navigate(path, s, hops) == Some(PostJobPage) {
      var q :| Route(q, s) == Render(PostJobPage);
    }
  }

  /** The posting screen's own access check (profiles not tagged "company" see "Access
      Denied") never fires behind the route: whenever the route renders the screen, the
      screen shows its form. */
  lemma PostingRouteShowsForm(s: Session)
    ensures Route(PostJobPath, s) == Render(PostJobPage) ==> PostJob.ShowsForm(s)
    ensures s.currentUser.Some? && !PostJob.ShowsForm(s) ==> Route(PostJobPath, s) == Redirect(DashboardPath)
  {
  }
}
