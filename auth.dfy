/** The session/role store of the auth provider: the current user and the loading flag,
    updated from the results of the authentication provider's calls. Each provider call is
    an input to the operation that awaits it. */
module Auth {
  import opened Wrappers
  import opened React

  /** A role as read from the `user_roles` table. The value is cast, not checked, so any
      string can arrive; the three the application knows are below. */
  type Role = string

  const SuperAdminRole: Role := "superadmin"
  const AdminRole: Role := "admin"
  const UserRole: Role := "user"

  /** The application's view of who is logged in. */
  datatype User = User(id: string, email: string, role: Role)

  /** The provider's user record inside a session; the email may be missing. */
  datatype AuthUser = AuthUser(id: string, email: Option<string>)

  /** A provider session; it may carry no user. */
  datatype Session = Session(user: Option<AuthUser>)

  datatype ProviderError = ProviderError(message: string)

  /** One row of `user_roles`. */
  datatype RoleRow = RoleRow(role: Role)

  /** The answer of the single-row role query: a row, an error, both absent, or both. */
  datatype RoleQuery = RoleQuery(data: Option<RoleRow>, error: Option<ProviderError>)

  /** The answer of the password sign-in call. */
  datatype SignInResponse = SignInResponse(session: Option<Session>, error: Option<ProviderError>)

  /** The provider's observable state. */
  datatype AuthState = AuthState(user: Option<User>, loading: bool)

  /** The result of an operation that may throw: the new state and the error thrown, if any. */
  datatype Step = Step(state: AuthState, thrown: Option<ProviderError>)

  /** The provider's state when it is created. */
  const Initial: AuthState := AuthState(None, true)

  /** Role resolution: the stored role, or `user` when the query errs or finds no row. */
  function FetchUserRole(q: RoleQuery): (role: Role)
    ensures q.error.Some? || q.data.None? ==> role == UserRole
    ensures q.error.None? && q.data.Some? ==> role == q.data.value.role
  {
    if q.error.Some? || q.data.None? then UserRole else q.data.value.role
  }

  /** The user published for a provider user and a resolved role. */
  function ToUser(u: AuthUser, role: Role): (r: User)
    ensures r.id == u.id && r.role == role
    ensures r.email == if u.email.Some? then u.email.value else ""
  {
    User(u.id, u.email.GetOr(""), role)
  }

  /** The user `loadUser` publishes for a session: none without a session user. */
  function SessionUser(session: Option<Session>, q: RoleQuery): (r: Option<User>)
    ensures r.Some? <==> session.Some? && session.value.user.Some?
    ensures r.Some? ==> r.value == ToUser(session.value.user.value, FetchUserRole(q))
  {
    if session.Some? && session.value.user.Some? then Some(ToUser(session.value.user.value, FetchUserRole(q)))
    else None
  }

  /** `loadUser`: publish the session's user and leave the loading state. */
  function LoadUser(s: AuthState, session: Option<Session>, q: RoleQuery): (r: AuthState)
    ensures !r.loading
    ensures r.user == SessionUser(session, q)
  {
    AuthState(SessionUser(session, q), false)
  }

  /** `signIn`: a provider error is thrown and changes nothing; otherwise the session's
      user, if any, is published. The loading flag is never touched. */
  function SignIn(s: AuthState, resp: SignInResponse, q: RoleQuery): (r: Step)
    ensures r.state.loading == s.loading
    ensures r.thrown == resp.error
    ensures resp.error.Some? ==> r.state == s
    ensures resp.error.None? ==> r.state.user == (if resp.session.Some? && resp.session.value.user.Some? then SessionUser(resp.session, q) else s.user)
  {
    if resp.error.Some? then Step(s, resp.error)
    else if resp.session.Some? && resp.session.value.user.Some? then
      Step(AuthState(SessionUser(resp.session, q), s.loading), None)
    else Step(s, None)
  }

  /** `signOut`: a provider error is thrown and changes nothing; otherwise the user is cleared. */
  function SignOut(s: AuthState, error: Option<ProviderError>): (r: Step)
    ensures r.thrown == error
    ensures r.state.loading == s.loading
    ensures error.Some? ==> r.state == s
    ensures error.None? ==> r.state.user.None?
  {
    if error.Some? then Step(s, error) else Step(AuthState(None, s.loading), None)
  }

  /** Everything that changes the store, each applied as one atomic step. */
  datatype Event =
    | Load(session: Option<Session>, query: RoleQuery)
    | SignInCall(response: SignInResponse, query: RoleQuery)
    | SignOutCall(error: Option<ProviderError>)

  function Apply(s: AuthState, e: Event): AuthState
  {
    match e
    case Load(session, q) => LoadUser(s, session, q)
    case SignInCall(resp, q) => SignIn(s, resp, q).state
    case SignOutCall(err) => SignOut(s, err).state
  }

  /** The state after applying the events in order. */
  function Run(s: AuthState, events: seq<Event>): AuthState
    decreases |events|
  {
    if events == [] then s else Run(Apply(s, events[0]), events[1..])
  }

  /** Events that can publish a user: a load of a session with a user, or a sign-in that the
      provider accepts with a session user. */
  predicate EstablishesUser(e: Event)
  {
    match e
    case Load(session, _) => session.Some? && session.value.user.Some?
    case SignInCall(resp, _) => resp.error.None? && resp.session.Some? && resp.session.value.user.Some?
    case SignOutCall(_) => false
  }

  lemma {:induction false} RunConcat(s: AuthState, a: seq<Event>, b: seq<Event>)
    ensures Run(s, a + b) == Run(Run(s, a), b)
    decreases |a|
  {
    if a != [] {
      assert (a + b)[1..] == a[1..] + b;
      RunConcat(Apply(s, a[0]), a[1..], b);
    } else {
      assert a + b == b;
    }
  }

  /** The store is loading exactly while no `loadUser` has completed: loading starts true,
      the first load clears it, and no operation sets it again. */
  lemma {:induction false} LoadingUntilFirstLoad(s: AuthState, events: seq<Event>)
    ensures Run(s, events).loading <==> s.loading && forall i :: 0 <= i < |events| ==> !events[i].Load?
    decreases |events|
  {
    if events != [] {
      LoadingUntilFirstLoad(Apply(s, events[0]), events[1..]);
      assert forall i :: 1 <= i < |events| ==> events[i] == events[1..][i - 1];
    }
  }

  /** From the initial state, the store is loading iff no load has happened yet. */
  lemma InitialLoading(events: seq<Event>)
    ensures Run(Initial, events).loading <==> forall i :: 0 <= i < |events| ==> !events[i].Load?
  {
    LoadingUntilFirstLoad(Initial, events);
  }

  /** Once loaded, the store never goes back to loading. */
  lemma LoadingNeverReturns(s: AuthState, events: seq<Event>)
    requires !s.loading
    ensures !Run(s, events).loading
  {
    LoadingUntilFirstLoad(s, events);
  }

  /** After a successful sign-out the user stays null until an event establishes one. */
  lemma {:induction false} SignedOutStaysOut(s: AuthState, events: seq<Event>)
    requires forall i :: 0 <= i < |events| ==> !EstablishesUser(events[i])
    ensures Run(SignOut(s, None).state, events).user.None?
    decreases |events|
  {
    if events != [] {
      var t := SignOut(s, None).state;
      assert !EstablishesUser(events[0]);
      assert Apply(t, events[0]).user.None?;
      assert forall i :: 0 <= i < |events[1..]| ==> !EstablishesUser(events[1..][i]) by {
        forall i | 0 <= i < |events[1..]| ensures !EstablishesUser(events[1..][i]) {
          assert events[1..][i] == events[i + 1];
        }
      }
      NoneStaysNone(Apply(t, events[0]), events[1..]);
    }
  }

  lemma {:induction false} NoneStaysNone(s: AuthState, events: seq<Event>)
    requires s.user.None?
    requires forall i :: 0 <= i < |events| ==> !EstablishesUser(events[i])
    ensures Run(s, events).user.None?
    decreases |events|
  {
    if events != [] {
      assert !EstablishesUser(events[0]);
      assert forall i :: 0 <= i < |events[1..]| ==> !EstablishesUser(events[1..][i]) by {
        forall i | 0 <= i < |events[1..]| ensures !EstablishesUser(events[1..][i]) {
          assert events[1..][i] == events[i + 1];
        }
      }
      NoneStaysNone(Apply(s, events[0]), events[1..]);
    }
  }

  /** Every load is applied unconditionally: the state after a history ending in a load is
      that load's result, whatever came before it. */
  lemma LastLoadWins(s: AuthState, events: seq<Event>, session: Option<Session>, q: RoleQuery)
    ensures Run(s, events + [Load(session, q)]) == AuthState(SessionUser(session, q), false)
  {
    RunConcat(s, events, [Load(session, q)]);
  }

  /** Role resolution never grants a privileged role the store did not hold: a resolved role
      other than `user` comes from an error-free query that returned that very row. */
  lemma NoEscalation(q: RoleQuery)
    ensures FetchUserRole(q) != UserRole ==> q.error.None? && q.data == Some(RoleRow(FetchUserRole(q)))
  {
  }

  /** The context value `useAuth` returns, or the error it throws outside the provider. */
  function UseAuth(context: Option<AuthProvider>): (r: Result<AuthProvider, string>)
    ensures r.Ok? <==> context.Some?
    ensures r.Ok? ==> r.value == context.value
    ensures r.Err? ==> r.error == "useAuth must be used within an AuthProvider"
  {
    UseContext(context, "useAuth must be used within an AuthProvider")
  }

  /** The provider object: two state fields, set by the operations below. */
  class AuthProvider {
    var user: Option<User>
    var loading: bool

    function State(): AuthState
      reads this
    {
      AuthState(user, loading)
    }

    constructor ()
      ensures State() == Initial
    {
      user := None;
      loading := true;
    }

    /** `loadUser(session)`, with `q` the answer of its role query. */
    method LoadUserFrom(session: Option<Session>, q: RoleQuery)
      modifies this
      ensures State() == LoadUser(old(State()), session, q)
    {
      if session.Some? && session.value.user.Some? {
        var role := FetchUserRole(q);
        var u := session.value.user.value;
        user := Some(User(u.id, if u.email.Some? then u.email.value else "", role));
      } else {
        user := None;
      }
      loading := false;
    }

    /** `signIn`, with `resp` the provider's answer and `q` the answer of the role query
        made when a session user came back; `thrown` is the error the call rejects with. */
    method SignInWith(resp: SignInResponse, q: RoleQuery) returns (thrown: Option<ProviderError>)
      modifies this
      ensures Step(State(), thrown) == SignIn(old(State()), resp, q)
    {
      if resp.error.Some? {
        return resp.error;
      }
      if resp.session.Some? && resp.session.value.user.Some? {
        var role := FetchUserRole(q);
        var u := resp.session.value.user.value;
        user := Some(User(u.id, if u.email.Some? then u.email.value else "", role));
      }
      return None;
    }

    /** `signOut`, with `error` the provider's answer; `thrown` is the error rejected with. */
    method SignOutWith(error: Option<ProviderError>) returns (thrown: Option<ProviderError>)
      modifies this
      ensures Step(State(), thrown) == SignOut(old(State()), error)
    {
      if error.Some? {
        return error;
      }
      user := None;
      return None;
    }
  }
}
