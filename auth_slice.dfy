/** The Redux `auth` slice: who is signed in, with which token, and whether
    the stored session has been read yet. Each reducer is a pure
    `Transition` (the new state plus what it does to storage key `token` and
    to the API headers); the class `AuthStore` performs the same reducers in
    place against the shared storage and the shared `APIService`. */
module AuthSlice {
  import opened Wrappers
  import opened Strings
  import opened Domain
  import opened BrowserStorage
  import opened ApiServices
  import Api
  import AuthTokens

  datatype AuthState = AuthState(user: Option<User>, token: Option<string>, isAuthenticated: bool, isLoading: bool)

  /** Nobody signed in, session not read yet. */
  const INITIAL: AuthState := AuthState(None, None, false, true)

  /** The storage key the slice reads and writes; the refresh token's key is
      never touched here. */
  const TOKEN_KEY: string := "token"

  /** What a reducer does to storage key `token`. */
  datatype TokenWrite = KeepToken | WriteToken(value: string) | RemoveToken

  /** What a reducer does to the headers of the four API services. */
  datatype HeaderWrite = KeepHeaders | SetHeaders(token: string) | ClearHeaders

  datatype Transition = Transition(state: AuthState, tokenWrite: TokenWrite, headerWrite: HeaderWrite)

  /** `isAuthenticated` holds exactly when there is a token, and exactly
      when there is a user. */
  predicate Consistent(s: AuthState) {
    (s.isAuthenticated <==> s.token.Some?) && (s.token.Some? <==> s.user.Some?)
  }

  /** The user record built from decoded claims; the timestamps are left
      empty. */
  function UserOf(c: Claims): (u: User)
    ensures u.id == c.id && u.email == c.email && u.username == c.username && u.role == c.role
    ensures u.createdAt == "" && u.updatedAt == ""
  {
    User(c.id, c.email, c.username, c.role, "", "")
  }

  function Anonymous(s: AuthState): AuthState {
    s.(user := None, token := None, isAuthenticated := false)
  }

  /** `initializeAuth`, given the value of storage key `token`. */
  function OnInitializeAuth(s: AuthState, stored: Option<string>, decode: Decoder): Transition {
    if Present(stored) then
      match decode(stored.value)
      case Success(c) =>
        Transition(s.(user := Some(UserOf(c)), token := stored, isAuthenticated := true, isLoading := false),
                   KeepToken, SetHeaders(stored.value))
      case Failure(_) =>
        Transition(Anonymous(s).(isLoading := false), RemoveToken, KeepHeaders)
    else Transition(s.(isLoading := false), KeepToken, KeepHeaders)
  }

  /** `login(token)`. */
  function OnLogin(s: AuthState, token: string, decode: Decoder): Transition {
    match decode(token)
    case Success(c) =>
      Transition(s.(user := Some(UserOf(c)), token := Some(token), isAuthenticated := true),
                 WriteToken(token), SetHeaders(token))
    case Failure(_) => Transition(Anonymous(s), KeepToken, KeepHeaders)
  }

  /** `logout()`. */
  function OnLogout(s: AuthState): Transition {
    Transition(Anonymous(s), RemoveToken, ClearHeaders)
  }

  /** `updateUser(user)`. */
  function OnUpdateUser(s: AuthState, u: User): AuthState {
    s.(user := Some(u))
  }

  /** `setLoading(b)`. */
  function OnSetLoading(s: AuthState, b: bool): AuthState {
    s.(isLoading := b)
  }

  function ApplyTokenWrite(m: map<string, string>, w: TokenWrite): map<string, string> {
    match w
    case KeepToken => m
    case WriteToken(v) => m[TOKEN_KEY := v]
    case RemoveToken => m - {TOKEN_KEY}
  }

  function ApplyHeaderWrite(hs: seq<Option<string>>, w: HeaderWrite): seq<Option<string>> {
    match w
    case KeepHeaders => hs
    case SetHeaders(t) => var h := Some(Api.Bearer(t)); [h, h, h, h]
    case ClearHeaders => [None, None, None, None]
  }

  // ----- Properties -----

  /** The initial state is anonymous and loading. */
  lemma InitialIsAnonymousAndLoading()
    ensures INITIAL.user == None && INITIAL.token == None && !INITIAL.isAuthenticated && INITIAL.isLoading
    ensures Consistent(INITIAL)
  {
  }

  /** `initializeAuth` always ends loading; with no stored token it changes
      nothing else and has no effect. */
  lemma InitializeAuthEndsLoading(s: AuthState, stored: Option<string>, decode: Decoder)
    ensures !OnInitializeAuth(s, stored, decode).state.isLoading
    ensures !Present(stored) ==> OnInitializeAuth(s, stored, decode) == Transition(s.(isLoading := false), KeepToken, KeepHeaders)
  {
  }

  /** A decodable stored token signs its owner in and is handed to the API
      services; an undecodable one signs everybody out and is removed from
      storage. */
  lemma InitializeAuthOutcomes(s: AuthState, stored: string, decode: Decoder)
    requires stored != ""
    ensures var t := OnInitializeAuth(s, Some(stored), decode);
      (decode(stored).Success? ==>
         (t.state == AuthState(Some(UserOf(decode(stored).value)), Some(stored), true, false) &&
          t.tokenWrite == KeepToken && t.headerWrite == SetHeaders(stored))) &&
      (decode(stored).Failure? ==>
         (t.state == AuthState(None, None, false, false) && t.tokenWrite == RemoveToken && t.headerWrite == KeepHeaders))
  {
  }

  /** `login` with a decodable token signs in, stores the token and hands it
      to the API services; with an undecodable one it signs out and touches
      neither storage nor headers. `isLoading` is never changed. */
  lemma LoginOutcomes(s: AuthState, token: string, decode: Decoder)
    ensures var t := OnLogin(s, token, decode);
      t.state.isLoading == s.isLoading &&
      (decode(token).Success? ==>
         (t.state.user == Some(UserOf(decode(token).value)) && t.state.token == Some(token) && t.state.isAuthenticated &&
          t.tokenWrite == WriteToken(token) && t.headerWrite == SetHeaders(token))) &&
      (decode(token).Failure? ==>
         (t.state == Anonymous(s) && t.tokenWrite == KeepToken && t.headerWrite == KeepHeaders))
  {
  }

  /** `logout` signs out, removes storage key `token` and clears all four
      headers. */
  lemma LogoutOutcome(s: AuthState, m: map<string, string>, hs: seq<Option<string>>)
    ensures var t := OnLogout(s);
      t.state.user == None && t.state.token == None && !t.state.isAuthenticated && t.state.isLoading == s.isLoading &&
      TOKEN_KEY !in ApplyTokenWrite(m, t.tokenWrite) &&
      ApplyHeaderWrite(hs, t.headerWrite) == [None, None, None, None]
  {
  }

  /** No reducer of this slice touches any storage key but `token`; in
      particular the refresh token survives `logout` and an undecodable
      stored token. */
  lemma OnlyTokenKeyWritten(s: AuthState, stored: Option<string>, token: string, decode: Decoder, m: map<string, string>, k: string)
    requires k != TOKEN_KEY
    ensures var ts := [OnInitializeAuth(s, stored, decode), OnLogin(s, token, decode), OnLogout(s)];
      forall i :: 0 <= i < 3 ==>
        (k in ApplyTokenWrite(m, ts[i].tokenWrite) <==> k in m) &&
        (k in m ==> ApplyTokenWrite(m, ts[i].tokenWrite)[k] == m[k])
  {
  }

  /** After `initializeAuth`, `login` or `logout`, `isAuthenticated`, the
      token and the user agree; `initializeAuth` with no stored token keeps
      whatever agreement there was. */
  lemma ReducersKeepConsistent(s: AuthState, stored: Option<string>, token: string, decode: Decoder)
    ensures Consistent(OnLogin(s, token, decode).state) && Consistent(OnLogout(s).state)
    ensures Present(stored) ==> Consistent(OnInitializeAuth(s, stored, decode).state)
    ensures Consistent(s) ==> Consistent(OnInitializeAuth(s, stored, decode).state)
  {
  }

  /** `updateUser` changes only the user and `setLoading` only the loading
      flag. */
  lemma UpdatersChangeOneField(s: AuthState, u: User, b: bool)
    ensures var t := OnUpdateUser(s, u);
      t.user == Some(u) && t.token == s.token && t.isAuthenticated == s.isAuthenticated && t.isLoading == s.isLoading
    ensures var t := OnSetLoading(s, b);
      t.isLoading == b && t.user == s.user && t.token == s.token && t.isAuthenticated == s.isAuthenticated
  {
  }

  /** `updateUser` does not check the session: on an anonymous state it
      yields a user with no token. */
  lemma UpdateUserCanBreakConsistency(u: User)
    ensures Consistent(Anonymous(INITIAL)) && !Consistent(OnUpdateUser(Anonymous(INITIAL), u))
  {
  }

  /** `login` writes storage key `token` without going through the token
      store, so a token store whose cache mirrored storage no longer does
      once a different token is written. */
  lemma LoginBypassesTokenCache(ts: AuthTokens.StoreState, s: AuthState, token: string, decode: Decoder)
    requires AuthTokens.Mirrored(ts) && decode(token).Success? && ts.access != Some(token)
    ensures var w := OnLogin(s, token, decode).tokenWrite;
      !AuthTokens.Mirrored(ts.(storage := ApplyTokenWrite(ts.storage, w)))
  {
  }

  /** The slice as the store holds it, wired to the shared storage and the
      shared `APIService`. `decode` stands for `jwtDecode`. */
  class AuthStore {
    var state: AuthState
    const storage: Storage
    const api: ApiService
    const decode: Decoder

    constructor (storage: Storage, api: ApiService, decode: Decoder)
      ensures state == INITIAL && this.storage == storage && this.api == api && this.decode == decode
    {
      state := INITIAL;
      this.storage := storage;
      this.api := api;
      this.decode := decode;
    }

    /** Carries out a transition's storage and header effects. */
    method Apply(t: Transition)
      modifies this`state, storage, api.userService, api.dishService, api.ingredientsService, api.nutrientsService
      ensures state == t.state
      ensures storage.entries == ApplyTokenWrite(old(storage.entries), t.tokenWrite)
      ensures api.Headers() == ApplyHeaderWrite(old(api.Headers()), t.headerWrite)
    {
      state := t.state;
      match t.tokenWrite {
        case KeepToken =>
        case WriteToken(v) => storage.SetItem(TOKEN_KEY, v);
        case RemoveToken => storage.RemoveItem(TOKEN_KEY);
      }
      match t.headerWrite {
        case KeepHeaders =>
        case SetHeaders(tok) => api.SetToken(tok);
        case ClearHeaders => api.Logout();
      }
    }

    method InitializeAuth()
      modifies this`state, storage, api.userService, api.dishService, api.ingredientsService, api.nutrientsService
      ensures var t := OnInitializeAuth(old(state), old(storage.GetItem(TOKEN_KEY)), decode);
        state == t.state && storage.entries == ApplyTokenWrite(old(storage.entries), t.tokenWrite) &&
        api.Headers() == ApplyHeaderWrite(old(api.Headers()), t.headerWrite)
    {
      var stored := storage.GetItem(TOKEN_KEY);
      Apply(OnInitializeAuth(state, stored, decode));
    }

    method Login(token: string)
      modifies this`state, storage, api.userService, api.dishService, api.ingredientsService, api.nutrientsService
      ensures var t := OnLogin(old(state), token, decode);
        state == t.state && storage.entries == ApplyTokenWrite(old(storage.entries), t.tokenWrite) &&
        api.Headers() == ApplyHeaderWrite(old(api.Headers()), t.headerWrite)
    {
      Apply(OnLogin(state, token, decode));
    }

    method Logout()
      modifies this`state, storage, api.userService, api.dishService, api.ingredientsService, api.nutrientsService
      ensures var t := OnLogout(old(state));
        state == t.state && storage.entries == ApplyTokenWrite(old(storage.entries), t.tokenWrite) &&
        api.Headers() == ApplyHeaderWrite(old(api.Headers()), t.headerWrite)
    {
      Apply(OnLogout(state));
    }

    method UpdateUser(u: User)
      modifies this`state
      ensures state == OnUpdateUser(old(state), u)
    {
      state := state.(user := Some(u));
    }

    method SetLoading(b: bool)
      modifies this`state
      ensures state == OnSetLoading(old(state), b)
    {
      state := state.(isLoading := b);
    }
  }
}
