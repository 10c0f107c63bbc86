/** `ProtectedRoute`: what a guarded page shows for the current auth view. */
module ProtectedRoute {
  import opened Wrappers
  import opened Domain
  import opened AuthSlice
  import opened AuthHook

  datatype RouteView = LoadingView | NavigateTo(path: string) | Children

  /** The guard's decision; `requireAdmin` is false unless the route asks for
      it (`GuardDefault`). */
  function Guard(v: AuthView, requireAdmin: bool): (r: RouteView)
    ensures v.isLoading ==> r == LoadingView
    ensures !v.isLoading && !v.isAuthenticated ==> r == NavigateTo("/login")
    ensures !v.isLoading && v.isAuthenticated && requireAdmin && !v.isAdmin ==> r == NavigateTo("/")
    ensures r == Children <==> !v.isLoading && v.isAuthenticated && (!requireAdmin || v.isAdmin)
  {
    if v.isLoading then LoadingView
    else if !v.isAuthenticated then NavigateTo("/login")
    else if requireAdmin && !v.isAdmin then NavigateTo("/")
    else Children
  }

  function GuardDefault(v: AuthView): RouteView {
    Guard(v, false)
  }

  /** Before the session is read every guarded page shows the loading view;
      once it is read with no stored token, every guarded page sends the
      visitor to the login page. */
  lemma StartupThenLogin(decode: Decoder, requireAdmin: bool)
    ensures Guard(UseAuth(INITIAL), requireAdmin) == LoadingView
    ensures Guard(UseAuth(OnInitializeAuth(INITIAL, None, decode).state), requireAdmin) == NavigateTo("/login")
  {
  }

  /** On a consistent state, a rendered page always has a signed-in user and
      a token, and an admin-only page a user whose role is `ADMIN`. A route
      without `requireAdmin` renders for every signed-in user. */
  lemma RenderedMeansSignedIn(s: AuthState, requireAdmin: bool)
    requires Consistent(s)
    ensures Guard(UseAuth(s), requireAdmin) == Children ==>
      s.user.Some? && s.token.Some? && (requireAdmin ==> s.user.value.role == ADMIN)
    ensures !s.isLoading && s.user.Some? ==> GuardDefault(UseAuth(s)) == Children
  {
  }
}
