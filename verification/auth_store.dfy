/**
 * The authentication store: the signed-in user, the access token and three
 * flags. Its four operations are specified as functions on the state value;
 * the store object applies them in place.
 */
module AuthStore {
  import opened Wrappers

  /** The user record the token endpoint returns. */
  datatype User = User(id: int, username: string, email: string, role: string)

  datatype AuthState = AuthState(
    user: Option<User>,
    token: Option<string>,
    isAuthenticated: bool,
    isLoading: bool,
    error: Option<string>)

  /** The store's invariant: signed in exactly when a token is held. */
  predicate Consistent(s: AuthState)
  {
    s.isAuthenticated <==> s.token.Some?
  }

  /** The state the store is created with. */
  function Initial(): (s: AuthState)
    ensures Consistent(s)
    ensures !s.isAuthenticated && s.user.None? && s.token.None? && !s.isLoading && s.error.None?
  {
    AuthState(None, None, false, false, None)
  }

  /** `login(user, token)`: store both, mark authenticated, clear loading and error. */
  function LoggedIn(s: AuthState, user: User, token: string): (r: AuthState)
    ensures Consistent(r)
    ensures r.isAuthenticated && r.user == Some(user) && r.token == Some(token)
    ensures !r.isLoading && r.error.None?
  {
    AuthState(Some(user), Some(token), true, false, None)
  }

  /** `logout()`: every field back to its initial value. */
  function LoggedOut(s: AuthState): (r: AuthState)
    ensures r == Initial()
  {
    AuthState(None, None, false, false, None)
  }

  /** `setLoading(loading)`: only `isLoading` changes. */
  function WithLoading(s: AuthState, loading: bool): (r: AuthState)
    ensures r.isLoading == loading
    ensures r.user == s.user && r.token == s.token && r.isAuthenticated == s.isAuthenticated
    ensures r.error == s.error
    ensures Consistent(s) ==> Consistent(r)
  {
    s.(isLoading := loading)
  }

  /** `setError(error)`: only `error` changes. */
  function WithError(s: AuthState, error: Option<string>): (r: AuthState)
    ensures r.error == error
    ensures r.user == s.user && r.token == s.token && r.isAuthenticated == s.isAuthenticated
    ensures r.isLoading == s.isLoading
    ensures Consistent(s) ==> Consistent(r)
  {
    s.(error := error)
  }

  /** Signing in and then out, from any state, leaves the initial state. */
  lemma LoginThenLogout(s: AuthState, user: User, token: string)
    ensures LoggedOut(LoggedIn(s, user, token)) == Initial()
  {
  }

  /** One call to the store. */
  datatype AuthCall = Login(user: User, token: string) | Logout | SetLoading(loading: bool) | SetError(error: Option<string>)

  function Apply(s: AuthState, call: AuthCall): AuthState
  {
    match call
    case Login(u, t) => LoggedIn(s, u, t)
    case Logout => LoggedOut(s)
    case SetLoading(b) => WithLoading(s, b)
    case SetError(e) => WithError(s, e)
  }

  /** The state after `calls`, in order. */
  function Run(s: AuthState, calls: seq<AuthCall>): AuthState
    decreases |calls|
  {
    if calls == [] then s else Run(Apply(s, calls[0]), calls[1..])
  }

  /** Whatever the calls and their order, the invariant survives them. */
  lemma {:induction false} RunKeepsConsistent(s: AuthState, calls: seq<AuthCall>)
    requires Consistent(s)
    ensures Consistent(Run(s, calls))
    decreases |calls|
  {
    if calls != [] {
      RunKeepsConsistent(Apply(s, calls[0]), calls[1..]);
    }
  }

  class Store {
    var user: Option<User>
    var token: Option<string>
    var isAuthenticated: bool
    var isLoading: bool
    var error: Option<string>

    /** The store's fields as one value. */
    function State(): AuthState
      reads this
    {
      AuthState(user, token, isAuthenticated, isLoading, error)
    }

    constructor ()
      ensures State() == Initial()
    {
      user, token, isAuthenticated, isLoading, error := None, None, false, false, None;
    }

    method Login(u: User, t: string)
      modifies this
      ensures State() == LoggedIn(old(State()), u, t)
      ensures Consistent(State())
    {
      user, token, isAuthenticated, isLoading, error := Some(u), Some(t), true, false, None;
    }

    method Logout()
      modifies this
      ensures State() == LoggedOut(old(State())) && State() == Initial()
    {
      user, token, isAuthenticated, isLoading, error := None, None, false, false, None;
    }

    method SetLoading(loading: bool)
      modifies this
      ensures State() == WithLoading(old(State()), loading)
      ensures Consistent(old(State())) ==> Consistent(State())
    {
      isLoading := loading;
    }

    method SetError(e: Option<string>)
      modifies this
      ensures State() == WithError(old(State()), e)
      ensures Consistent(old(State())) ==> Consistent(State())
    {
      error := e;
    }
  }
}
