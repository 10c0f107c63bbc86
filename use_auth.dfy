/** The `useAuth` hook: the view of the auth slice the pages read, and the
    callbacks that forward to the slice's reducers. */
module AuthHook {
  import opened Wrappers
  import opened Domain
  import opened AuthSlice

  datatype AuthView = AuthView(
    user: Option<User>,
    token: Option<string>,
    isAuthenticated: bool,
    isLoading: bool,
    isAdmin: bool)

  /** The hook's return value for a given auth state. */
  function UseAuth(s: AuthState): (v: AuthView)
    ensures v.user == s.user && v.token == s.token
    ensures v.isAuthenticated == s.isAuthenticated && v.isLoading == s.isLoading
    ensures v.isAdmin <==> s.user.Some? && s.user.value.role == ADMIN
  {
    AuthView(s.user, s.token, s.isAuthenticated, s.isLoading, s.user.Some? && s.user.value.role == ADMIN)
  }

  /** An action the callbacks dispatch to the slice. */
  datatype Dispatch = DispatchLogin(token: string) | DispatchLogout | DispatchUpdateUser(user: User)

  /** `login(token)`: any further argument a caller passes (the login page
      passes the refresh token) is ignored. */
  function LoginCallback(token: string, extra: seq<string>): seq<Dispatch> {
    [DispatchLogin(token)]
  }

  function LogoutCallback(): seq<Dispatch> {
    [DispatchLogout]
  }

  /** `updateUser(user)`: nothing is dispatched for `null`. */
  function UpdateUserCallback(u: Option<User>): seq<Dispatch> {
    if u.Some? then [DispatchUpdateUser(u.value)] else []
  }

  /** The slice's reducer for a dispatched action, as a state change (the
      storage and header effects are those of the `Transition`). */
  function Reduce(s: AuthState, d: Dispatch, decode: Decoder): AuthState {
    match d
    case DispatchLogin(t) => OnLogin(s, t, decode).state
    case DispatchLogout => OnLogout(s).state
    case DispatchUpdateUser(u) => OnUpdateUser(s, u)
  }

  function ReduceAll(s: AuthState, ds: seq<Dispatch>, decode: Decoder): AuthState
    decreases |ds|
  {
    if ds == [] then s else ReduceAll(Reduce(s, ds[0], decode), ds[1..], decode)
  }

  /** `login` dispatches exactly one action, carrying the first argument only:
      the refresh token handed to it never reaches the slice. */
  lemma LoginForwardsOneToken(s: AuthState, token: string, extra1: seq<string>, extra2: seq<string>, decode: Decoder)
    ensures |LoginCallback(token, extra1)| == 1
    ensures LoginCallback(token, extra1) == LoginCallback(token, extra2)
    ensures ReduceAll(s, LoginCallback(token, extra1), decode) == OnLogin(s, token, decode).state
  {
    assert LoginCallback(token, extra1)[1..] == [];
  }

  /** `updateUser(null)` dispatches nothing and so leaves the state as it
      was; a user is forwarded as is. */
  lemma UpdateUserSkipsNull(s: AuthState, u: Option<User>, decode: Decoder)
    ensures u.None? ==> UpdateUserCallback(u) == [] && ReduceAll(s, UpdateUserCallback(u), decode) == s
    ensures u.Some? ==> ReduceAll(s, UpdateUserCallback(u), decode) == s.(user := u)
  {
    if u.Some? {
      assert UpdateUserCallback(u)[1..] == [];
    }
  }

  /** `logout` reaches the slice's logout reducer. */
  lemma LogoutForwards(s: AuthState, decode: Decoder)
    ensures ReduceAll(s, LogoutCallback(), decode) == OnLogout(s).state
  {
    assert LogoutCallback()[1..] == [];
  }
}
