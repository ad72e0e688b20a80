/**
 * `AuthProvider`: the session state every page reads through `useAuth`
 * (the signed-in `user` and whether it is still `loading`), the token in
 * local storage, and the route the router was last sent to.  Each
 * asynchronous handler is one method whose awaited answers are
 * parameters; a handler that rethrows returns the error.
 */
module AuthContext {
  import opened Wrappers
  import opened AuthClient

  const UseAuthOutsideMessage := "useAuth must be used within an AuthProvider"

  class AuthProvider {
    var user: Option<Profile>
    var loading: bool
    /** The path of the last `router.push`; none before the first. */
    var route: Option<string>
    const store: TokenStore

    /** The provider as first rendered: no user yet, loading. */
    constructor (store: TokenStore)
      ensures this.store == store && user == None && loading && route == None
    {
      this.store := store;
      user := None;
      loading := true;
      route := None;
    }

    /**
     * `loadUser`, run once on mount.  The profile is requested only when a
     * token is stored; a failed request removes the token.  `fetched` says
     * whether the profile was requested.
     */
    method LoadUser(profile: Result<Profile, HttpError>) returns (fetched: bool)
      modifies this`user, this`loading, store`authToken
      ensures fetched <==> old(store.IsAuthenticated())
      ensures !loading
      ensures !fetched ==> user == old(user) && store.authToken == old(store.authToken)
      ensures fetched && profile.Success? ==> user == Some(profile.value) && store.authToken == old(store.authToken)
      ensures fetched && profile.Failure? ==> user == old(user) && store.authToken == None
    {
      fetched := store.IsAuthenticated();
      if fetched {
        if profile.Success? {
          user := Some(profile.value);
        } else {
          store.Remove();
        }
      }
      loading := false;
    }

    /**
     * `login`: on success the user is the response's user and the router
     * goes to the dashboard; a rejected request changes nothing here and
     * is rethrown.
     */
    method Login(response: Result<AuthResponse, HttpError>) returns (r: Result<(), HttpError>)
      modifies this`user, this`route, store`authToken
      ensures r.Success? <==> response.Success?
      ensures response.Failure? ==>
                r == Failure(response.error) && user == old(user) && route == old(route)
                && store.authToken == old(store.authToken)
      ensures response.Success? ==>
                user == Some(response.value.user) && route == Some("/dashboard")
                && (response.value.token.Some? && response.value.token.value != "" ==> store.authToken == response.value.token)
    {
      var answer := store.Login(response);
      if answer.Failure? {
        return Failure(answer.error);
      }
      user := Some(answer.value.user);
      route := Some("/dashboard");
      r := Success(());
    }

    /** `signup`: the same transitions as `login`, through `authApi.signup`. */
    method Signup(response: Result<AuthResponse, HttpError>) returns (r: Result<(), HttpError>)
      modifies this`user, this`route, store`authToken
      ensures r.Success? <==> response.Success?
      ensures response.Failure? ==>
                r == Failure(response.error) && user == old(user) && route == old(route)
                && store.authToken == old(store.authToken)
      ensures response.Success? ==>
                user == Some(response.value.user) && route == Some("/dashboard")
                && (response.value.token.Some? && response.value.token.value != "" ==> store.authToken == response.value.token)
    {
      var answer := store.Signup(response);
      if answer.Failure? {
        return Failure(answer.error);
      }
      user := Some(answer.value.user);
      route := Some("/dashboard");
      r := Success(());
    }

    /**
     * `logout`: whatever the server answers, the session ends with no user,
     * no token and the login page.
     */
    method Logout(post: Result<(), HttpError>)
      modifies this`user, this`route, store`authToken
      ensures user == None && store.authToken == None && !store.IsAuthenticated() && route == Some("/login")
    {
      var _ := store.Logout(post);
      user := None;
      store.Remove();
      route := Some("/login");
    }

    /** `updateUser`: the user becomes the one the update answers with; a rejection is rethrown. */
    method UpdateUser(response: Result<Profile, HttpError>) returns (r: Result<(), HttpError>)
      modifies this`user
      ensures r.Success? <==> response.Success?
      ensures response.Success? ==> user == Some(response.value)
      ensures response.Failure? ==> r == Failure(response.error) && user == old(user)
    {
      if response.Failure? {
        return Failure(response.error);
      }
      user := Some(response.value);
      r := Success(());
    }

    /**
     * `refreshUser`: nothing happens without a stored token; otherwise the
     * profile replaces the user, and a rejection is rethrown.  `fetched`
     * says whether the profile was requested.
     */
    method RefreshUser(profile: Result<Profile, HttpError>) returns (r: Result<(), HttpError>, fetched: bool)
      modifies this`user
      ensures fetched <==> store.IsAuthenticated()
      ensures !fetched ==> r.Success? && user == old(user)
      ensures fetched && profile.Success? ==> r.Success? && user == Some(profile.value)
      ensures fetched && profile.Failure? ==> r == Failure(profile.error) && user == old(user)
    {
      fetched := store.IsAuthenticated();
      if !fetched {
        return Success(()), fetched;
      }
      if profile.Failure? {
        return Failure(profile.error), fetched;
      }
      user := Some(profile.value);
      r := Success(());
    }
  }

  /** `useAuth`: the provider's value, or the error thrown outside any provider. */
  function UseAuth(provider: Option<AuthProvider>): (r: Result<AuthProvider, string>)
    ensures r.Success? <==> provider.Some?
    ensures r.Success? ==> r.value == provider.value
    ensures r.Failure? ==> r.error == UseAuthOutsideMessage
  {
    if provider.None? then Failure(UseAuthOutsideMessage) else Success(provider.value)
  }

  /**
   * What the login and signup pages render from `useAuth`'s values: a
   * spinner while the session loads, nothing once a user is signed in,
   * otherwise the form.
   */
  datatype Screen = Spinner | Nothing | Form

  function AuthPageScreen(authLoading: bool, user: Option<Profile>): (s: Screen)
    ensures s == Spinner <==> authLoading
    ensures s == Form <==> !authLoading && user.None?
  {
    if authLoading then Spinner else if user.Some? then Nothing else Form
  }

  /** The effect of the login and signup pages: go to the dashboard once loading is done and a user exists. */
  predicate RedirectsToDashboard(authLoading: bool, user: Option<Profile>) {
    !authLoading && user.Some?
  }

  /** A page renders nothing exactly when it is about to redirect. */
  lemma NothingIffRedirect(authLoading: bool, user: Option<Profile>)
    ensures AuthPageScreen(authLoading, user) == Nothing <==> RedirectsToDashboard(authLoading, user)
  {
  }

  /**
   * After a successful login the pages redirect: the session is loaded
   * (the provider loads once, on mount) and the user is set.
   */
  method LoginThenRedirect(p: AuthProvider, profile: Result<Profile, HttpError>, response: Result<AuthResponse, HttpError>)
    returns (r: Result<(), HttpError>)
    modifies p`user, p`loading, p`route, p.store`authToken
    ensures r.Success? <==> response.Success?
    ensures r.Success? ==> RedirectsToDashboard(p.loading, p.user) && AuthPageScreen(p.loading, p.user) == Nothing
    ensures r.Failure? ==> !p.loading && p.route == old(p.route)
  {
    var _ := p.LoadUser(profile);
    r := p.Login(response);
  }
}
