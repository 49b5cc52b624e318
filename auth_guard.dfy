/**
 * `AuthGuard`: the gate in front of every signed-in page. It shows a
 * placeholder while the session loads, sends a signed-out visitor to
 * `/login`, and otherwise renders the page inside the header chrome with a
 * sign-out button.
 */
module AuthGuard {
  import opened Wrappers
  import opened JsRecord
  import JsText
  import opened Http
  import opened AuthService
  import opened AuthSlice

  const LoginPath := "/login"

  /** What the guard renders; `ProtectedPage` is the chrome around the children. */
  datatype Screen =
    | LoadingPlaceholder
    | FallbackContent(fallback: string)
    | RedirectingMessage
    | ProtectedPage(welcome: Value, company: Option<Value>)

  /**
   * `user?.company_name && (...)`: the line under the welcome text, shown
   * with the field's value exactly when that value is truthy.
   */
  function CompanyLine(user: Option<Record>): (c: Option<Value>)
    ensures c.Some? <==> user.Some? && Truthy(Get(user.value, "company_name"))
    ensures c.Some? ==> c.value == user.value["company_name"]
  {
    if user.Some? && Truthy(Get(user.value, "company_name"))
    then Some(user.value["company_name"])
    else None
  }

  /** `user?.contact_person || user?.name`: the contact person when truthy, else the name, else `undefined`. */
  function Welcome(user: Option<Record>): (w: Value)
    ensures user.None? ==> w == Undefined
    ensures user.Some? && Truthy(Get(user.value, "contact_person")) ==> w == user.value["contact_person"]
    ensures user.Some? && !Truthy(Get(user.value, "contact_person")) ==> w == Get(user.value, "name")
  {
    match user
    case Some(u) => Or(Get(u, "contact_person"), Get(u, "name"))
    case None => Undefined
  }

  /** The render decision on `(isLoading, isAuthenticated)`; a falsy `fallback` falls back to the redirect message. */
  function Gate(isLoading: bool, isAuthenticated: bool, user: Option<Record>, fallback: Option<string>): (screen: Screen)
    ensures isLoading <==> screen == LoadingPlaceholder
    ensures !isLoading && !isAuthenticated <==> screen.FallbackContent? || screen == RedirectingMessage
    ensures !isLoading && isAuthenticated <==> screen.ProtectedPage?
    ensures screen.FallbackContent? <==> !isLoading && !isAuthenticated && JsText.TruthyOpt(fallback)
    ensures screen.FallbackContent? ==> screen.fallback == fallback.value
    ensures screen.ProtectedPage? ==> screen.welcome == Welcome(user) && screen.company == CompanyLine(user)
  {
    if isLoading then LoadingPlaceholder
    else if !isAuthenticated then
      (if JsText.TruthyOpt(fallback) then FallbackContent(fallback.value) else RedirectingMessage)
    else ProtectedPage(Welcome(user), CompanyLine(user))
  }

  /** The effect's test: navigate to `/login` once loading is over and nobody is signed in. */
  predicate ShouldRedirect(isLoading: bool, isAuthenticated: bool): (b: bool)
    ensures b ==> !isLoading
    ensures b <==> Gate(isLoading, isAuthenticated, None, None) == RedirectingMessage
  {
    !isLoading && !isAuthenticated
  }

  /** The effect navigates exactly when the screen is a signed-out one, and never from the loading placeholder. */
  lemma RedirectMatchesScreen(isLoading: bool, isAuthenticated: bool, user: Option<Record>, fallback: Option<string>)
    ensures var screen := Gate(isLoading, isAuthenticated, user, fallback);
      ShouldRedirect(isLoading, isAuthenticated) <==> screen.FallbackContent? || screen == RedirectingMessage
    ensures Gate(isLoading, isAuthenticated, user, fallback) == LoadingPlaceholder ==> !ShouldRedirect(isLoading, isAuthenticated)
  {
  }

  /** The Next.js router: the paths pushed so far. */
  class Router {
    var history: seq<string>

    constructor()
      ensures history == []
    {
      history := [];
    }

    method Push(path: string)
      modifies this
      ensures history == old(history) + [path]
    {
      history := history + [path];
    }
  }

  /**
   * One mounted guard. `deps` is the `[isAuthenticated, isLoading]` pair
   * the effect last ran with (none before the first render); the effect
   * runs again only when that pair changes.
   */
  class Guard {
    var deps: Option<(bool, bool)>

    constructor()
      ensures deps.None?
    {
      deps := None;
    }

    /** Render with the store's current fields, then run the effect if its dependencies changed. */
    method Render(router: Router, isLoading: bool, isAuthenticated: bool, user: Option<Record>, fallback: Option<string>)
      returns (screen: Screen)
      modifies this, router
      ensures screen == Gate(isLoading, isAuthenticated, user, fallback)
      ensures deps == Some((isAuthenticated, isLoading))
      ensures router.history == old(router.history) +
        (if old(deps) != Some((isAuthenticated, isLoading)) && ShouldRedirect(isLoading, isAuthenticated) then [LoginPath] else [])
    {
      screen := Gate(isLoading, isAuthenticated, user, fallback);
      if deps != Some((isAuthenticated, isLoading)) {
        deps := Some((isAuthenticated, isLoading));
        if !isLoading && !isAuthenticated {
          router.Push(LoginPath);
        }
      }
    }
  }

  /**
   * `handleSignOut`: dispatch `logoutUser`, then go to `/login`. Awaiting a
   * dispatched thunk never throws, so the navigation always happens and
   * happens once.
   */
  method HandleSignOut(store: AuthStore, jar: CookieJar, router: Router, o: Outcome<()>)
    modifies store, jar, router
    ensures store.State() == LogoutFlow(old(store.State()))
    ensures jar.cookies == WithoutSession(old(jar.cookies))
    ensures router.history == old(router.history) + [LoginPath]
  {
    var redirect := store.DispatchLogout(jar, o);
    router.Push(LoginPath);
  }

  /** After sign-out the guard, rendered again with the store's fields, sends the visitor to `/login` and shows a signed-out screen. */
  lemma SignOutLeavesGuardSignedOut(s: AuthState, user: Option<Record>, fallback: Option<string>)
    ensures var t := LogoutFlow(s);
      ShouldRedirect(t.isLoading, t.isAuthenticated) &&
      !Gate(t.isLoading, t.isAuthenticated, user, fallback).ProtectedPage?
  {
  }
}
