/**
 * The `auth` slice of the Redux store: the session record, the reducer cases
 * and the thunks `loginUser`, `logoutUser`, `refreshProfile` and
 * `initializeAuth` that drive them through the session service.
 */
module AuthSlice {
  import opened Wrappers
  import opened JsRecord
  import JsText
  import opened Http
  import opened AuthService

  datatype AuthState = AuthState(
    user: Option<Record>,
    token: Option<string>,
    isAuthenticated: bool,
    isLoading: bool,
    error: Option<string>)

  /** `initialAuthState`: nobody signed in, nothing loading, no error. */
  const InitialAuthState := AuthState(None, None, false, false, None)

  datatype LoginPayload = LoginPayload(user: Option<Record>, token: string)

  datatype InitPayload = InitPayload(user: Option<Record>, token: Option<string>, isAuthenticated: bool)

  /** The actions the slice reduces; the thunk phases without a case (`initialize`/`refreshProfile` pending) are not listed. */
  datatype Action =
    | ClearError
    | SetLoading(loading: bool)
    | UpdateUser(changes: Record)
    | LoginPending
    | LoginFulfilled(login: LoginPayload)
    | LoginRejected(reason: string)
    | LogoutPending
    | LogoutFulfilled
    | LogoutRejected(reason: string)
    | InitializeFulfilled(init: InitPayload)
    | RefreshFulfilled(profile: Record)
    | RefreshRejected(reason: string)

  /** How a thunk settles: its return value, or the value given to `rejectWithValue`. */
  datatype Settled<T> = Fulfilled(value: T) | Rejected(reason: string)

  /**
   * The reducer, case by case. Only a fulfilled login or an initialization
   * signs the store in; only the login, logout and initialize cases touch
   * the token; a rejected login and both logout outcomes leave nobody
   * signed in and nothing loading.
   */
  function Reduce(s: AuthState, a: Action): (r: AuthState)
    ensures r.isAuthenticated && !s.isAuthenticated ==> a.LoginFulfilled? || a.InitializeFulfilled?
    ensures r.token != s.token ==>
      a.LoginFulfilled? || a.LoginRejected? || a.LogoutFulfilled? || a.LogoutRejected? || a.InitializeFulfilled?
    ensures a.LoginRejected? || a.LogoutFulfilled? || a.LogoutRejected? ==>
      r.user.None? && r.token.None? && !r.isAuthenticated && !r.isLoading
  {
    match a
    case ClearError => s.(error := None)
    case SetLoading(b) => s.(isLoading := b)
    case UpdateUser(changes) =>
      if s.user.Some? then s.(user := Some(s.user.value + changes)) else s
    case LoginPending => s.(isLoading := true, error := None)
    case LoginFulfilled(p) =>
      AuthState(p.user, Some(p.token), true, false, None)
    case LoginRejected(m) => AuthState(None, None, false, false, Some(m))
    case LogoutPending => s.(isLoading := true)
    case LogoutFulfilled => s.(user := None, token := None, isAuthenticated := false, isLoading := false, error := None)
    case LogoutRejected(m) => s.(user := None, token := None, isAuthenticated := false, isLoading := false, error := Some(m))
    case InitializeFulfilled(p) =>
      s.(user := p.user, token := p.token, isAuthenticated := p.isAuthenticated, isLoading := false)
    case RefreshFulfilled(u) => s.(user := Some(u))
    case RefreshRejected(m) => s.(error := Some(m))
  }

  /** The jar after `updateUser`: the merged user is written back only when there was a user. */
  function AfterUpdateUser(jar: Jar, user: Option<Record>, changes: Record): (j: Jar)
    ensures user.None? ==> j == jar
    ensures user.Some? ==> j == jar[UserKey := Json(Stringified(user.value + changes))]
  {
    if user.Some? then jar[UserKey := Json(Stringified(user.value + changes))] else jar
  }

  // ---------------------------------------------------------------------
  // The thunks, given the outcomes of the calls they make

  /**
   * `loginUser`: rejects unless the response has both `status` and `data`;
   * otherwise fulfils with the profile fetch's result (which may be none)
   * and the login user's id as token.
   */
  function LoginThunk(lo: Outcome<LoginResponse>, po: Outcome<CurrentUserResponse>): (r: Settled<LoginPayload>)
    ensures r.Fulfilled? <==> lo.Response? && Accepted(lo.body)
    ensures r.Fulfilled? ==> r.value == LoginPayload(GetCurrentUser(po), lo.body.data.value.user.id)
    ensures r.Rejected? ==> r.reason != ""
  {
    match LoginResult(lo)
    case Success(b) =>
      if b.status && b.data.Some? then Fulfilled(LoginPayload(GetCurrentUser(po), b.data.value.user.id))
      else Rejected(JsText.Or(b.message, "Login failed"))
    case Failure(m) => Rejected(JsText.Or(m, "Login failed"))
  }

  /** `refreshProfile`: the fresh profile, or the service's error message. */
  function RefreshThunk(o: Outcome<CurrentUserResponse>): (r: Settled<Record>)
    ensures r.Fulfilled? <==> GetCurrentUser(o).Some?
    ensures r.Fulfilled? ==> r.value == GetCurrentUser(o).value
    ensures r.Rejected? ==> r.reason != ""
  {
    match RefreshProfileResult(o)
    case Success(u) => Fulfilled(u)
    case Failure(m) => Rejected(JsText.Or(m, "Failed to refresh profile"))
  }

  /** `initializeAuth`: what the jar says, read at time `now`. */
  function InitializeThunk(jar: Jar, now: string): InitPayload {
    InitPayload(GetCurrentUserFromCookie(jar, now), GetCurrentToken(jar), IsAuthenticated(jar, now))
  }

  function LoginSettledAction(r: Settled<LoginPayload>): Action {
    match r
    case Fulfilled(p) => LoginFulfilled(p)
    case Rejected(m) => LoginRejected(m)
  }

  function RefreshSettledAction(r: Settled<Record>): Action {
    match r
    case Fulfilled(u) => RefreshFulfilled(u)
    case Rejected(m) => RefreshRejected(m)
  }

  /** The state after `dispatch(loginUser(...))` has settled. */
  function LoginFlow(s: AuthState, lo: Outcome<LoginResponse>, po: Outcome<CurrentUserResponse>): AuthState {
    Reduce(Reduce(s, LoginPending), LoginSettledAction(LoginThunk(lo, po)))
  }

  /** The state after `dispatch(logoutUser())` has settled: the thunk cannot reject, since the service swallows every failure. */
  function LogoutFlow(s: AuthState): AuthState {
    Reduce(Reduce(s, LogoutPending), LogoutFulfilled)
  }

  // ---------------------------------------------------------------------
  // The store

  /** The slice's state as the store holds it; each reducer case assigns its fields in place. */
  class AuthStore {
    var user: Option<Record>
    var token: Option<string>
    var isAuthenticated: bool
    var isLoading: bool
    var error: Option<string>

    function State(): AuthState
      reads this
    {
      AuthState(user, token, isAuthenticated, isLoading, error)
    }

    constructor()
      ensures State() == InitialAuthState
    {
      user := None;
      token := None;
      isAuthenticated := false;
      isLoading := false;
      error := None;
    }

    method ClearError()
      modifies this
      ensures State() == Reduce(old(State()), Action.ClearError)
    {
      error := None;
    }

    method SetLoading(loading: bool)
      modifies this
      ensures State() == Reduce(old(State()), Action.SetLoading(loading))
    {
      isLoading := loading;
    }

    /** `updateUser`: merge into the user and rewrite `b2b_user`, or do nothing when signed out. */
    method UpdateUser(changes: Record, jar: CookieJar)
      modifies this, jar
      ensures State() == Reduce(old(State()), Action.UpdateUser(changes))
      ensures jar.cookies == AfterUpdateUser(old(jar.cookies), old(user), changes)
    {
      if user.Some? {
        user := Some(user.value + changes);
        jar.Set(UserKey, Json(Stringified(user.value)));
      }
    }

    method LoginPending()
      modifies this
      ensures State() == Reduce(old(State()), Action.LoginPending)
    {
      isLoading := true;
      error := None;
    }

    method LoginFulfilled(p: LoginPayload)
      modifies this
      ensures State() == Reduce(old(State()), Action.LoginFulfilled(p))
    {
      isLoading := false;
      user := p.user;
      token := Some(p.token);
      isAuthenticated := true;
      error := None;
    }

    method LoginRejected(reason: string)
      modifies this
      ensures State() == Reduce(old(State()), Action.LoginRejected(reason))
    {
      isLoading := false;
      user := None;
      token := None;
      isAuthenticated := false;
      error := Some(reason);
    }

    method LogoutPending()
      modifies this
      ensures State() == Reduce(old(State()), Action.LogoutPending)
    {
      isLoading := true;
    }

    method LogoutFulfilled()
      modifies this
      ensures State() == Reduce(old(State()), Action.LogoutFulfilled)
    {
      isLoading := false;
      user := None;
      token := None;
      isAuthenticated := false;
      error := None;
    }

    method LogoutRejected(reason: string)
      modifies this
      ensures State() == Reduce(old(State()), Action.LogoutRejected(reason))
    {
      isLoading := false;
      user := None;
      token := None;
      isAuthenticated := false;
      error := Some(reason);
    }

    method InitializeFulfilled(p: InitPayload)
      modifies this
      ensures State() == Reduce(old(State()), Action.InitializeFulfilled(p))
    {
      user := p.user;
      token := p.token;
      isAuthenticated := p.isAuthenticated;
      isLoading := false;
    }

    method RefreshFulfilled(profile: Record)
      modifies this
      ensures State() == Reduce(old(State()), Action.RefreshFulfilled(profile))
    {
      user := Some(profile);
    }

    method RefreshRejected(reason: string)
      modifies this
      ensures State() == Reduce(old(State()), Action.RefreshRejected(reason))
    {
      error := Some(reason);
    }

    /** `dispatch(loginUser(credentials))`, with the login call's and the profile fetch's outcomes. */
    method DispatchLogin(jar: CookieJar, lo: Outcome<LoginResponse>, po: Outcome<CurrentUserResponse>) returns (redirect: bool)
      modifies this, jar
      ensures State() == LoginFlow(old(State()), lo, po)
      ensures jar.cookies == AfterLogin(old(jar.cookies), lo)
      ensures redirect <==> lo.Thrown? && lo.error.status == Some(401)
    {
      LoginPending();
      var r, header;
      r, header, redirect := AuthService.Login(jar, lo);
      match r
      case Success(b) =>
        if b.status && b.data.Some? {
          var profile := GetCurrentUser(po);
          LoginFulfilled(LoginPayload(profile, b.data.value.user.id));
        } else {
          LoginRejected(JsText.Or(b.message, "Login failed"));
        }
      case Failure(m) =>
        LoginRejected(JsText.Or(m, "Login failed"));
    }

    /** `dispatch(logoutUser())`, with the logout call's outcome. */
    method DispatchLogout(jar: CookieJar, o: Outcome<()>) returns (redirect: bool)
      modifies this, jar
      ensures State() == LogoutFlow(old(State()))
      ensures jar.cookies == WithoutSession(old(jar.cookies))
      ensures redirect <==> o.Thrown? && o.error.status == Some(401)
    {
      LogoutPending();
      var header;
      header, redirect := AuthService.Logout(jar, o);
      LogoutFulfilled();
    }

    /** `dispatch(refreshProfile())`, with the profile fetch's outcome. */
    method DispatchRefreshProfile(jar: CookieJar, o: Outcome<CurrentUserResponse>)
      modifies this, jar
      ensures State() == Reduce(old(State()), RefreshSettledAction(RefreshThunk(o)))
      ensures jar.cookies == AfterRefreshProfile(old(jar.cookies), o)
    {
      var r := AuthService.RefreshProfile(jar, o);
      match r
      case Success(u) => RefreshFulfilled(u);
      case Failure(m) => RefreshRejected(JsText.Or(m, "Failed to refresh profile"));
    }

    /** `dispatch(initializeAuth())`, reading the jar at time `now`. */
    method DispatchInitialize(jar: CookieJar, now: string)
      modifies this
      ensures State() == Reduce(old(State()), Action.InitializeFulfilled(InitializeThunk(jar.cookies, now)))
    {
      var u := GetCurrentUserFromCookie(jar.cookies, now);
      var t := GetCurrentToken(jar.cookies);
      var a := IsAuthenticated(jar.cookies, now);
      InitializeFulfilled(InitPayload(u, t, a));
    }
  }

  // ---------------------------------------------------------------------
  // Properties

  /** `loginUser.pending` raises `isLoading`, clears `error`, and keeps the session fields. */
  lemma LoginPendingKeepsSession(s: AuthState)
    ensures var t := Reduce(s, LoginPending);
      t.isLoading && t.error.None? && t.user == s.user && t.token == s.token && t.isAuthenticated == s.isAuthenticated
  {
  }

  /**
   * A login rejection wipes whatever session was there, while a fulfilled
   * login authenticates with the login user's id as the token.
   */
  lemma LoginFlowOutcome(s: AuthState, lo: Outcome<LoginResponse>, po: Outcome<CurrentUserResponse>)
    ensures var t := LoginFlow(s, lo, po);
      !t.isLoading &&
      (lo.Response? && Accepted(lo.body) ==>
        t.isAuthenticated && t.token == Some(lo.body.data.value.user.id) && t.user == GetCurrentUser(po) && t.error.None?) &&
      (!(lo.Response? && Accepted(lo.body)) ==>
        !t.isAuthenticated && t.user.None? && t.token.None? && t.error.Some? && t.error.value != "")
  {
  }

  /** A fulfilled login does not guarantee a user: the profile fetch may fail and the store is still authenticated. */
  lemma AuthenticatedWithoutUser(s: AuthState, b: LoginResponse, e: HttpError)
    requires Accepted(b)
    ensures LoginFlow(s, Response(b), Thrown(e)).isAuthenticated
    ensures LoginFlow(s, Response(b), Thrown(e)).user.None?
  {
  }

  /** Both logout cases clear the session and loading; only the rejected one records an error. */
  lemma LogoutClearsSession(s: AuthState, m: string)
    ensures var t := Reduce(s, LogoutFulfilled);
      t.user.None? && t.token.None? && !t.isAuthenticated && !t.isLoading && t.error.None?
    ensures var t := Reduce(s, LogoutRejected(m));
      t.user.None? && t.token.None? && !t.isAuthenticated && !t.isLoading && t.error == Some(m)
  {
  }

  /** Initializing twice from an unchanged jar gives the same state as initializing once. */
  lemma InitializeIdempotent(s: AuthState, jar: Jar, now: string)
    ensures var a := InitializeFulfilled(InitializeThunk(jar, now));
      Reduce(Reduce(s, a), a) == Reduce(s, a)
  {
  }

  /** A profile refresh replaces only `user` on success and only `error` on failure. */
  lemma RefreshTouchesOnlyUserOrError(s: AuthState, o: Outcome<CurrentUserResponse>)
    ensures var t := Reduce(s, RefreshSettledAction(RefreshThunk(o)));
      t.token == s.token && t.isAuthenticated == s.isAuthenticated && t.isLoading == s.isLoading &&
      (GetCurrentUser(o).Some? ==> t.user == GetCurrentUser(o) && t.error == s.error) &&
      (GetCurrentUser(o).None? ==> t.user == s.user && t.error.Some?)
  {
  }

  /** `updateUser` with no user is a no-op on state and jar; `clearError` changes only `error`. */
  lemma UpdateUserAndClearError(s: AuthState, jar: Jar, changes: Record)
    ensures s.user.None? ==> Reduce(s, UpdateUser(changes)) == s && AfterUpdateUser(jar, s.user, changes) == jar
    ensures s.user.Some? ==> Reduce(s, UpdateUser(changes)).user == Some(s.user.value + changes)
    ensures Reduce(s, ClearError) == s.(error := None)
  {
  }

  /** After a login that stores a non-empty id, initializing from the jar agrees with the store: signed in with that token. */
  lemma LoginThenInitialize(s: AuthState, jar: Jar, b: LoginResponse, po: Outcome<CurrentUserResponse>, now: string)
    requires Accepted(b) && b.data.value.user.id != ""
    ensures var t := Reduce(LoginFlow(s, Response(b), po), InitializeFulfilled(InitializeThunk(AfterLogin(jar, Response(b)), now)));
      t.isAuthenticated && t.token == Some(b.data.value.user.id) && t.user.Some? && !t.isLoading
  {
    var j := AfterLogin(jar, Response(b));
    LoginStoresSession(jar, b, now);
    var p := InitializeThunk(j, now);
    assert p.isAuthenticated && p.token == Some(b.data.value.user.id) && p.user.Some?;
    InitializeOverrides(LoginFlow(s, Response(b), po), p);
  }

  /** An initialization replaces the session fields whatever the state before it. */
  lemma InitializeOverrides(s: AuthState, p: InitPayload)
    ensures var t := Reduce(s, InitializeFulfilled(p));
      t.user == p.user && t.token == p.token && t.isAuthenticated == p.isAuthenticated && !t.isLoading
  {
  }

  /** After a logout, initializing from the jar leaves nobody signed in. */
  lemma LogoutThenInitialize(s: AuthState, jar: Jar, now: string)
    ensures var t := Reduce(LogoutFlow(s), InitializeFulfilled(InitializeThunk(WithoutSession(jar), now)));
      !t.isAuthenticated && t.token.None? && t.user.None?
  {
    LogoutEndsSession(jar, now);
  }

  /** Initialization reports a session only when it also reports a token. */
  lemma InitializeHasToken(jar: Jar, now: string)
    ensures InitializeThunk(jar, now).isAuthenticated ==> InitializeThunk(jar, now).token.Some?
  {
  }

  /** An action the thunks can produce: an initialization that claims a session carries a token. */
  predicate Producible(a: Action) {
    a.InitializeFulfilled? ==> (a.init.isAuthenticated ==> a.init.token.Some?)
  }

  /** The store's invariant: signed in implies a token. */
  predicate HasTokenWhenSignedIn(s: AuthState) {
    s.isAuthenticated ==> s.token.Some?
  }

  function Run(s: AuthState, actions: seq<Action>): AuthState
    decreases |actions|
  {
    if actions == [] then s else Run(Reduce(s, actions[0]), actions[1..])
  }

  /** Every producible action keeps the invariant, so any run of them from the initial state does. */
  lemma {:induction false} RunKeepsInvariant(s: AuthState, actions: seq<Action>)
    requires HasTokenWhenSignedIn(s)
    requires forall i :: 0 <= i < |actions| ==> Producible(actions[i])
    ensures HasTokenWhenSignedIn(Run(s, actions))
    decreases |actions|
  {
    if actions != [] {
      assert Producible(actions[0]);
      RunKeepsInvariant(Reduce(s, actions[0]), actions[1..]);
    }
  }
}
