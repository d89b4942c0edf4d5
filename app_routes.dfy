/**
 * The application's route table: what `AppRoutes` renders for the
 * authentication state and the location. A location is given already
 * matched against the four route patterns.
 */
module AppRoutes {
  import opened Records

  datatype Path = LoginPath | DashboardPath | CallPath(callId: string) | RootPath | OtherPath(path: string)

  /** What is shown: a page, a redirect to another location, or nothing (no route matches). */
  datatype Screen =
    | Spinner
    | LoginPage
    | ManagerDashboardPage
    | RepDashboardPage
    | CallDetailPage(callId: string)
    | Redirect(to: Path)
    | NoRoute

  predicate Protected(s: Screen)
  {
    s.ManagerDashboardPage? || s.RepDashboardPage? || s.CallDetailPage?
  }

  /** `AppRoutes`: the spinner while authentication loads, otherwise the matching route's element. */
  function Route(loading: bool, user: Option<User>, path: Path): (s: Screen)
    ensures loading ==> s == Spinner
    ensures !loading && path == LoginPath ==> s == if user.Some? then Redirect(DashboardPath) else LoginPage
    ensures !loading && path == DashboardPath ==>
      s == if user.None? then Redirect(LoginPath)
           else if user.value.role == ManagerRole then ManagerDashboardPage
           else RepDashboardPage
    ensures !loading && path.CallPath? ==> s == if user.Some? then CallDetailPage(path.callId) else Redirect(LoginPath)
    ensures !loading && path == RootPath ==> s == Redirect(DashboardPath)
    ensures !loading && path.OtherPath? ==> s == NoRoute
    ensures Protected(s) ==> user.Some? && !loading
  {
    if loading then Spinner
    else match path
      case LoginPath => if user.Some? then Redirect(DashboardPath) else LoginPage
      case DashboardPath =>
        if user.None? then Redirect(LoginPath)
        else if user.value.role == ManagerRole then ManagerDashboardPage
        else RepDashboardPage
      case CallPath(id) => if user.Some? then CallDetailPage(id) else Redirect(LoginPath)
      case RootPath => Redirect(DashboardPath)
      case OtherPath(_) => NoRoute
  }

  /** Follows redirects from `path`, at most `hops` of them. */
  function Settle(user: Option<User>, path: Path, hops: nat): Screen
    decreases hops
  {
    var s := Route(false, user, path);
    if s.Redirect? && hops > 0 then Settle(user, s.to, hops - 1) else s
  }

  /**
   * Redirects never loop: from any location at most two redirects lead to a
   * page, which is the right dashboard or the call for a signed-in user and
   * the login page for an anonymous one.
   */
  lemma RedirectsSettle(user: Option<User>, path: Path)
    requires !path.OtherPath?
    ensures !Settle(user, path, 2).Redirect?
    ensures user.None? ==> Settle(user, path, 2) == LoginPage
    ensures user.Some? && !path.CallPath? ==>
      Settle(user, path, 2) == if user.value.role == ManagerRole then ManagerDashboardPage else RepDashboardPage
  {
  }

  /** Only the role "manager" reaches the manager dashboard; every other role gets the rep dashboard. */
  lemma DashboardByRole(user: User)
    ensures Route(false, Some(user), DashboardPath) == ManagerDashboardPage <==> user.role == ManagerRole
    ensures Route(false, Some(user), DashboardPath) == RepDashboardPage <==> user.role != ManagerRole
  {
  }
}
