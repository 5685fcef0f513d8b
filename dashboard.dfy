/** The dashboard page: which view it shows for the auth store's state. */
module Dashboard {
  import opened Wrappers
  import opened Auth

  /** The page's possible outcomes. */
  datatype View = LoadingView | Redirect(to: string) | SuperAdminDashboard | AdminDashboard | UserDashboard

  const LoginPath: string := "/login"

  /** The roles that have a dashboard of their own. */
  predicate KnownRole(role: Role)
  {
    role == SuperAdminRole || role == AdminRole || role == UserRole
  }

  /** The dashboard's decision: loading first, then the missing user, then the role. */
  function DashboardView(loading: bool, user: Option<User>): (v: View)
    ensures loading ==> v == LoadingView
    ensures !loading && user.None? ==> v == Redirect(LoginPath)
    ensures !loading && user.Some? && user.value.role == SuperAdminRole ==> v == SuperAdminDashboard
    ensures !loading && user.Some? && user.value.role == AdminRole ==> v == AdminDashboard
    ensures !loading && user.Some? && user.value.role == UserRole ==> v == UserDashboard
    ensures !loading && user.Some? && !KnownRole(user.value.role) ==> v == Redirect(LoginPath)
  {
    if loading then LoadingView
    else if user.None? then Redirect(LoginPath)
    else if user.value.role == SuperAdminRole then SuperAdminDashboard
    else if user.value.role == AdminRole then AdminDashboard
    else if user.value.role == UserRole then UserDashboard
    else Redirect(LoginPath)
  }

  /** Each outcome, characterised in both directions: the only redirect target is the login
      page, and it is reached exactly for a loaded state without a user of a known role. */
  lemma DashboardOutcomes(loading: bool, user: Option<User>)
    ensures DashboardView(loading, user) == LoadingView <==> loading
    ensures DashboardView(loading, user).Redirect? <==> !loading && (user.None? || !KnownRole(user.value.role))
    ensures DashboardView(loading, user).Redirect? ==> DashboardView(loading, user).to == LoginPath
    ensures DashboardView(loading, user) == SuperAdminDashboard <==> !loading && user.Some? && user.value.role == SuperAdminRole
    ensures DashboardView(loading, user) == AdminDashboard <==> !loading && user.Some? && user.value.role == AdminRole
    ensures DashboardView(loading, user) == UserDashboard <==> !loading && user.Some? && user.value.role == UserRole
  {
  }

  /** The dashboard of the auth store after a history of events shows the loading view
      exactly until the first load has completed. */
  lemma DashboardAfterEvents(events: seq<Event>)
    ensures (DashboardView(Run(Initial, events).loading, Run(Initial, events).user) == LoadingView) <==>
      (forall i :: 0 <= i < |events| ==> !events[i].Load?)
  {
    InitialLoading(events);
  }

  /** A signed-in user whose role lookup failed or found no row lands on the user dashboard. */
  lemma FailedLookupShowsUserDashboard(s: AuthState, session: Session, q: RoleQuery)
    requires session.user.Some?
    requires q.error.Some? || q.data.None?
    ensures var t := LoadUser(s, Some(session), q); DashboardView(t.loading, t.user) == UserDashboard
  {
  }

  /** After a load, the admin dashboards are shown only when the role row says so. */
  lemma PrivilegedOnlyFromRow(s: AuthState, session: Option<Session>, q: RoleQuery)
    ensures var t := LoadUser(s, session, q);
      (DashboardView(t.loading, t.user) in {SuperAdminDashboard, AdminDashboard} ==>
         q.error.None? && q.data.Some? && q.data.value.role in {SuperAdminRole, AdminRole})
  {
    NoEscalation(q);
  }

  /** After a successful sign-out (and once loaded) the dashboard sends the visitor to log in. */
  lemma SignedOutRedirects(s: AuthState)
    requires !s.loading
    ensures var t := SignOut(s, None).state; DashboardView(t.loading, t.user) == Redirect(LoginPath)
  {
  }
}
