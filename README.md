# dishes-web: session handling and decision rules

A model of the browser client of the dishes service: the token store with
its single-flight refresh, the retry-once 401 interceptor of every API
service, the Redux `auth` and `filters` slices, the `useAuth` view and the
`ProtectedRoute` guard, the route loaders and actions (session gates,
permission checks, validation order, the ingredient-row form parser and the
catch/rethrow policy), the error page, and the small rules of the pages:
list filters, unit-to-grams tables and nutrition sums, the favourite toggle,
the permission flags of the dish page and the ingredient rows of the dish
form.

Code that changes state in place is modelled as classes whose methods are
tied to pure transition functions (`TokenStore`, `ApiInstance`,
`ApiService`, `AuthStore`, `FiltersStore`, `FavoritesPage`,
`FavoriteToggle`, `IngredientRows`); loops are methods with invariants
(`Notify`, `CalculateTotals`, `ParseIngredients`); the query string that
`getAllDishes` builds by appending to a local parameter list is a method
(`GetAllDishesUrl`); the decision rules are functions. Asynchronous behaviour is made explicit as
event sequences: a refresh is a call and a later settle, a request through
the interceptor is a run of replies and refresh outcomes. Foreign code is a
parameter: `jwtDecode` is a `Decoder` giving the claims or the message of
the error it throws, `toLowerCase` is
`lower: string -> string`, `Number(text)` is `toNumber: string -> Num`, and
the server is the answer it gives (a `Result`). `localStorage` is the class
`BrowserStorage.Storage`, shared by every module that touches it.

Files: `wrappers.dfy`, `strings.dfy`, `seqs.dfy`, `domain.dfy`, `storage.dfy`
hold shared vocabulary; one file per modelled source file otherwise, and
`stats.dfy` holds the sums the four pages share.

## Model

| member | source | states |
|---|---|---|
| AuthTokens.SetTokensReadAfterWrite | src/utils/authTokens.ts:19-27 | after `setTokens(a, r)` with a truthy `r` both getters and both storage keys hold `a` and `r` |
| AuthTokens.SetTokensKeepsRefresh | src/utils/authTokens.ts:19-27 | without a truthy refresh token only the access token (cached and stored) changes; cached and stored refresh token are untouched |
| AuthTokens.ClearRemovesBoth | src/utils/authTokens.ts:29-35 | after `clearStoredTokens` both getters are null, both keys are gone and every other key is unchanged |
| AuthTokens.MirroredPreserved | src/utils/authTokens.ts:5-6 | cache and storage start equal and `setTokens`/`clearStoredTokens` keep them equal |
| AuthTokens.BroadcastReachesEachOnce | src/utils/authTokens.ts:42-44 | with no duplicate listeners, `notify` calls each registered listener exactly once and an unregistered one never |
| AuthTokens.EveryChangeNotifiesEachListener | src/utils/authTokens.ts:26 | every `setTokens` and every `clearStoredTokens` delivers exactly one notification to each registered listener, even when the value is unchanged |
| AuthTokens.SubscribeIdempotent | src/utils/authTokens.ts:37-40 | adding a listener twice registers it once (set semantics) and keeps the listener list duplicate-free |
| AuthTokens.UnsubscribedHearsNothing | src/utils/authTokens.ts:39 | after the returned unsubscribe runs, no later broadcast reaches that listener |
| AuthTokens.NotListedNotCalled | src/utils/authTokens.ts:42-44 | a listener not in the set is never called by `notify` |
| AuthTokens.WithoutKeepsNoDup | src/utils/authTokens.ts:39 | removing a listener keeps the set duplicate-free |
| AuthTokens.RefreshWithoutTokenIsInert | src/utils/authTokens.ts:47-49 | with no refresh token the refresh resolves to null at once, sends nothing and leaves the in-flight marker alone |
| AuthTokens.PendingCallsJoin | src/utils/authTokens.ts:51-52 | while a refresh is pending every further call shares the same request and nothing is sent |
| AuthTokens.SingleFlight | src/utils/authTokens.ts:51-74 | n >= 1 back-to-back calls send exactly one request and every caller gets that request |
| AuthTokens.SharersSeeOneValue | src/utils/authTokens.ts:51-74 | after back-to-back calls and the settle of their one request, every caller's handle yields that settle's outcome |
| AuthTokens.SettleEffects | src/utils/authTokens.ts:53-71 | settling always clears the marker; non-ok clears both tokens and yields null; ok stores the returned pair and yields the new access token; a transport failure rejects and leaves the tokens alone |
| AuthTokens.TransitionsKeepCoherent | src/utils/authTokens.ts:19-75 | every transition (set, clear, subscribe, unsubscribe, call, settle) keeps the store coherent (mirrored, duplicate-free, marker matches the pending request) |
| AuthTokens.TokenStore.constructor | src/utils/authTokens.ts:5-9 | loading the module reads both keys from storage into the cache, with no listeners and no refresh pending |
| AuthTokens.TokenStore.Notify | src/utils/authTokens.ts:42-44 | the loop appends exactly `Broadcast(listeners, token)` to the delivered calls |
| AuthTokens.TokenStore.SetTokens | src/utils/authTokens.ts:19-27 | the new state is `WithTokens` of the old one |
| AuthTokens.TokenStore.ClearStoredTokens | src/utils/authTokens.ts:29-35 | the new state is `Cleared` of the old one |
| AuthTokens.TokenStore.SubscribeToAccessToken | src/utils/authTokens.ts:37-38 | the new state is `WithListener` of the old one |
| AuthTokens.TokenStore.Unsubscribe | src/utils/authTokens.ts:39 | the new state is `WithoutListener` of the old one |
| AuthTokens.TokenStore.RefreshAccessToken | src/utils/authTokens.ts:46-52 | the new state and the handle returned are `CallRefresh` of the old state |
| AuthTokens.TokenStore.Settle | src/utils/authTokens.ts:53-71 | the new state and the outcome are `SettleRefresh` of the old state and the reply |
| Api.ErrorMessage | src/utils/api.ts:46 | the thrown message is the body's `message` when present and non-empty, otherwise the transport error's message |
| Api.OnError | src/utils/api.ts:30-34 | a refresh is asked for exactly on a 401 without `_retry`; every other failure throws `ErrorMessage` |
| Api.OnRefresh | src/utils/api.ts:36-47 | a truthy new token re-sends with that token; a null one goes through `handleUnauthorized` and throws; a rejected refresh propagates |
| Api.StepKeepsSane | src/utils/api.ts:27-48 | one event keeps the retry-once invariant: refresh asked at most once, only after `_retry` is set, at most two sends |
| Api.RunKeepsSane | src/utils/api.ts:27-48 | any event sequence keeps the retry-once invariant |
| Api.RetriedAtMostOnce | src/utils/api.ts:32-40 | whatever happens, a request is sent at most twice and asks for at most one refresh |
| Api.FinishedIsFinal | src/utils/api.ts:27-48 | once a request has settled no later event changes it |
| Api.SuccessYieldsBody | src/utils/api.ts:28 | a successful response resolves to its body only |
| Api.FirstUnauthorizedAsksRefresh | src/utils/api.ts:32-34 | a 401 on a fresh request sets `_retry` and asks for exactly one refresh |
| Api.SecondUnauthorizedThrows | src/utils/api.ts:32-47 | a 401 on an already retried request neither refreshes nor signs out, and throws |
| Api.RecoveredRequest | src/utils/api.ts:36-40 | 401, refresh yielding `t`, success: the instance header and the request header become `Bearer t`, the request is sent twice and resolves to the second body |
| Api.UnrecoveredRequest | src/utils/api.ts:43-58 | 401 and a null refresh: the instance header is removed, the login redirect happens unless on `/login` or `/register`, and an error is thrown |
| Api.RequestConfig.constructor | src/utils/api.ts:30 | a request starts without `_retry`, with the instance's header |
| Api.ApiInstance.constructor | src/utils/api.ts:13-24 | base URL kept, timeout 30000 ms, header `Bearer token` exactly when the token is truthy |
| Api.ApiInstance.SetAuthToken | src/utils/api.ts:60-64 | the default header becomes `Bearer t` |
| Api.ApiInstance.ClearAuthToken | src/utils/api.ts:66-68 | the default header is removed |
| Api.ApiInstance.HandleUnauthorized | src/utils/api.ts:52-58 | the token store is cleared, the header removed, and the login page is navigated to exactly when not on `/login` or `/register` |
| Api.ApiInstance.OnResponseError | src/utils/api.ts:29-34 | decides with `OnError`; on a refresh request sets `_retry` and starts `CallRefresh`; otherwise changes nothing |
| Api.ApiInstance.OnRefreshSettled | src/utils/api.ts:36-47 | acts as `OnRefresh` decides: re-send with the new header, or sign out and throw, or propagate |
| ApiServices.ApiService.constructor | src/utils/services/api.service.ts:12-17 | four distinct instances, all with the same base URL, timeout and token header |
| ApiServices.ApiService.SetToken | src/utils/services/api.service.ts:19-24 | all four instances send `Bearer t` |
| ApiServices.ApiService.Logout | src/utils/services/api.service.ts:26-31 | no instance sends an `Authorization` header |
| ApiServices.CreateSingleton | src/utils/services/api.service.ts:34-37 | the shared service uses the fixed base URL and the stored `token` key's value as header, none when the key is absent or empty |
| AuthSlice.UserOf | src/store/slices/authSlice.ts:41-48 | the user carries the claims' id, email, username and role and empty timestamps |
| AuthSlice.InitialIsAnonymousAndLoading | src/store/slices/authSlice.ts:23-28 | the initial state has no user, no token, is not authenticated and is loading |
| AuthSlice.InitializeAuthEndsLoading | src/store/slices/authSlice.ts:35-62 | `initializeAuth` always ends loading; with no stored token nothing else changes |
| AuthSlice.InitializeAuthOutcomes | src/store/slices/authSlice.ts:39-58 | a decodable token signs its owner in and sets the API header; an undecodable one removes only key `token` and signs out |
| AuthSlice.LoginOutcomes | src/store/slices/authSlice.ts:63-89 | a decodable token signs in, writes key `token` and sets the headers; an undecodable one signs out without touching storage or headers |
| AuthSlice.LogoutOutcome | src/store/slices/authSlice.ts:91-97 | logout signs out, removes key `token` only and clears all four headers |
| AuthSlice.OnlyTokenKeyWritten | src/store/slices/authSlice.ts:54-95 | no reducer touches any storage key but `token`, in particular not `refreshToken` |
| AuthSlice.ReducersKeepConsistent | src/store/slices/authSlice.ts:35-97 | after `initializeAuth`, `login` or `logout`, authenticated, token and user are present together |
| AuthSlice.UpdatersChangeOneField | src/store/slices/authSlice.ts:98-103 | `updateUser` changes only the user, `setLoading` only the loading flag |
| AuthSlice.UpdateUserCanBreakConsistency | src/store/slices/authSlice.ts:98-100 | `updateUser` on an anonymous state yields a user without a token |
| AuthSlice.LoginBypassesTokenCache | src/store/slices/authSlice.ts:82 | `login` writes key `token` while the token module's cache keeps its old value |
| AuthSlice.AuthStore.constructor | src/store/slices/authSlice.ts:23-33 | the store starts in the initial state, wired to the shared storage and API service |
| AuthSlice.AuthStore.Apply | src/store/slices/authSlice.ts:35-97 | carries out a transition: the new state, the storage write and the header write |
| AuthSlice.AuthStore.InitializeAuth | src/store/slices/authSlice.ts:35-62 | state, storage and headers change as `OnInitializeAuth` of the stored token says |
| AuthSlice.AuthStore.Login | src/store/slices/authSlice.ts:63-90 | state, storage and headers change as `OnLogin` says |
| AuthSlice.AuthStore.Logout | src/store/slices/authSlice.ts:91-97 | state, storage and headers change as `OnLogout` says |
| AuthSlice.AuthStore.UpdateUser | src/store/slices/authSlice.ts:98-100 | the state becomes `OnUpdateUser` of the old one |
| AuthSlice.AuthStore.SetLoading | src/store/slices/authSlice.ts:101-103 | the state becomes `OnSetLoading` of the old one |
| AuthHook.UseAuth | src/hooks/useAuth.ts:13-18 | user, token, authenticated and loading are passed through unchanged; `isAdmin` holds exactly for a user whose role is `ADMIN` |
| AuthHook.LoginForwardsOneToken | src/hooks/useAuth.ts:19 | `login` dispatches one action carrying only the first argument, whatever else the caller passes |
| AuthHook.UpdateUserSkipsNull | src/hooks/useAuth.ts:21-25 | `updateUser(null)` dispatches nothing; a user replaces the state's user |
| AuthHook.LogoutForwards | src/hooks/useAuth.ts:20 | `logout` reaches the slice's logout reducer |
| ProtectedRoute.Guard | src/components/ProtectedRoute.tsx:10-30 | loading shows the loading view; otherwise unauthenticated goes to `/login`, a non-admin on an admin route to `/`, and children render exactly when signed in and admin if required |
| ProtectedRoute.StartupThenLogin | src/components/ProtectedRoute.tsx:13-23 | before the session is read a guarded page shows loading, and with no stored token it then redirects to `/login` |
| ProtectedRoute.RenderedMeansSignedIn | src/components/ProtectedRoute.tsx:21-29 | on a consistent state a rendered page has a signed-in user (an admin if required); `requireAdmin` defaults to false |
| Loaders.AuthGate | src/utils/loaders.ts:7-14 | proceeds with the token exactly when one is stored, else throws the `/login` redirect |
| Loaders.RequireAuth | src/utils/loaders.ts:7-14 | decides as `AuthGate`; a stored token is handed to all four services, otherwise headers are unchanged |
| Loaders.RequireAdmin | src/utils/loaders.ts:17-22 | throws the `/` redirect unless the user exists and is `ADMIN` |
| Loaders.RedirectIsNot401 | src/utils/loaders.ts:45 | a redirect never passes the 401 test |
| Loaders.CatchersMap401ToLogin | src/utils/loaders.ts:44-121 | every catch clause turns a 401 into the `/login` redirect and never throws a 401; the plain catch rethrows anything else |
| Loaders.CaughtNo401 | src/utils/loaders.ts:44-51 | a run whose catch clause never yields a 401 throws no 401 |
| Loaders.NoLoaderLeaks401 | src/utils/loaders.ts:44-161 | no loader ever throws a 401 to the router |
| Loaders.NoTokenGoesToLogin | src/utils/loaders.ts:7-162 | without a stored token the list, form, admin and "my dishes" loaders throw the `/login` redirect and call nothing |
| Loaders.DishesLoaderSendsAdminsAway | src/utils/loaders.ts:30-50 | an administrator's token is redirected to `/admin` before any request |
| Loaders.DishFormLoaderEditRule | src/utils/loaders.ts:93-109 | in edit mode the form opens exactly for an admin or the author of a pending dish, otherwise redirects to `/dishes/<id>` |
| Loaders.DishLoaderOutcomes | src/utils/loaders.ts:56-75 | no id or no dish gives the 404 response; with no token the login redirect becomes a 500 |
| Loaders.DishLoaderCorrectedGoesToLogin | src/utils/loaders.ts:56-75 | with the redirect rethrown, no token goes to `/login` and every run with a token is unchanged |
| Loaders.MyDishesAsksForOwnDishes | src/utils/loaders.ts:150-155 | "my dishes" makes one request, with `authorId` set to the token's id; for an id of 0 that filter is dropped and the request is plain `/dishes` |
| Loaders.DecodeFailureOutcomes | src/utils/loaders.ts:30-162 | a token `jwtDecode` rejects leads, with no request, to `/login` when the library's message mentions 401; otherwise the list and "my dishes" loaders rethrow that error and the form loader gives a 500 |
| Actions.Get | src/utils/actions.ts:10-11 | none exactly when no entry has the key |
| Actions.GetIsFirst | src/utils/actions.ts:10-11 | a value found is that of the first entry with the key |
| Actions.OrUndefined | src/utils/actions.ts:126-127 | an empty or missing text is sent as undefined, any other unchanged |
| Actions.Catch | src/utils/actions.ts:23-28 | a 302 response is rethrown unchanged; anything else is returned as its message, or the fallback text |
| Actions.Perform | src/utils/actions.ts:133-138 | the requests run in order up to and including the first failure, whose error is thrown; none fails exactly when all ran |
| Actions.RegisterCheck | src/utils/actions.ts:39-53 | the first failing check in the order all fields, equal passwords, password >= 6, username >= 3 gives its message; none when all pass |
| Actions.CatchOwner | src/utils/actions.ts:297-305 | redirects and 404s are rethrown; anything else is returned as by the common catch |
| Actions.TryThenRedirectThrowsOnlyRedirects | src/utils/actions.ts:17-28 | a try block ending in a redirect throws only redirects: that redirect when every request succeeds, nothing thrown otherwise |
| Actions.LoginNeedsBoth | src/utils/actions.ts:13-15 | without email or password the fixed error is returned and nothing is called |
| Actions.LoginSucceeds | src/utils/actions.ts:17-22 | a successful login stores both returned tokens and redirects to the `redirect` parameter or `/` |
| Actions.LoginFails | src/utils/actions.ts:23-28 | a failed login stores nothing and returns the error's message or the fixed text |
| Actions.RegisterValidatesFirst | src/utils/actions.ts:39-56 | a failing check returns its message with no call; passing all, registration is the first call |
| Actions.RegisterSucceeds | src/utils/actions.ts:55-60 | a successful registration logs in with the same credentials, stores the tokens and redirects to `/` |
| Actions.NoTokenThrowsLogin | src/utils/actions.ts:397-403 | without a stored token every dish and admin action throws the `/login` redirect and calls nothing |
| Actions.SessionActionsThrowOnlyRedirects | src/utils/actions.ts:23-66 | login and registration throw nothing but redirects |
| Actions.CreateThrowsOnlyRedirects | src/utils/actions.ts:70-147 | creating a dish throws nothing but redirects |
| Actions.AdminActionsThrowOnlyRedirects | src/utils/actions.ts:309-394 | delete, status change and role change throw nothing but redirects |
| Actions.CreateNeedsNameAndAuthor | src/utils/actions.ts:79-81 | without a name or an author id the fixed error is returned and no create request is sent |
| Actions.CreateSendsParsedIngredients | src/utils/actions.ts:110-133 | the new dish carries ingredients exactly when some row survives the parse, and then exactly those rows |
| Actions.CreateUploadsOnlyNonEmptyImage | src/utils/actions.ts:136-140 | an upload happens exactly for a non-empty file and a non-zero dish id; success redirects to the new dish |
| Actions.UpdateFollowsEditRule | src/utils/actions.ts:160-187 | a caller outside the edit rule gets the refusal after the fetch with no write; one inside it gets the update sent |
| Actions.UpdateSendsIngredientsOnlyWhenSome | src/utils/actions.ts:236-239 | the ingredients endpoint is called only with the non-empty parsed rows |
| Actions.DecodeFailureOutcomes | src/utils/actions.ts:160-305 | a token `jwtDecode` rejects: the update action throws the library's error unchanged; the owner's update returns its message, or the fixed text when the message is empty |
| Actions.EditRuleAgreesWithFormLoader | src/utils/actions.ts:168-171 | for the same identity and dish, the form loader opens the form exactly when the update action does not refuse |
| Actions.OwnerUpdateRule | src/utils/actions.ts:278-296 | missing dish throws 404; non-author and non-accepted dish are refused; otherwise the status becomes PENDING and the edit form opens |
| Actions.OwnerUpdateThrowsOnlyRedirectsAnd404 | src/utils/actions.ts:297-305 | the owner's update throws only redirects and 404s |
| IngredientForm.DigitRun | src/utils/actions.ts:90 | the length of the leading digit run: all digits before it, a non-digit right after |
| IngredientForm.FieldOf | src/utils/actions.ts:90 | recognises exactly `].ingredientId`, `].quantity` and `].unit` |
| IngredientForm.DigitRunOfDigits | src/utils/actions.ts:90 | the digit run of digits followed by a non-digit is exactly those digits |
| IngredientForm.MatchKeyExactly | src/utils/actions.ts:90-93 | the matcher accepts exactly keys of the form `ingredients[<digits>].<field>` and reads the index and field |
| IngredientForm.DigitsValueOfNatToString | src/utils/actions.ts:92 | reading back the decimal text of n gives n |
| IngredientForm.KeyRoundTrip | src/pages/DishForm.tsx:180 | the key the form writes for row n and field f parses to (n, f) |
| IngredientForm.ParseIngredients | src/utils/actions.ts:84-118 | the two loops compute `Emit(Collect(entries))` |
| IngredientForm.AbsorbShape | src/utils/actions.ts:95-97 | one entry keeps each index once in the map's order and adds exactly the index it names |
| IngredientForm.CollectShape | src/utils/actions.ts:89-108 | the map's order lists each index once, exactly the indices some entry names |
| IngredientForm.CollectAppend | src/utils/actions.ts:89 | entries are absorbed one after another, in order |
| IngredientForm.LastWriteWins | src/utils/actions.ts:99-106 | a later value for the same row and field replaces the earlier one |
| IngredientForm.AbsorbExtends | src/utils/actions.ts:95-97 | one entry keeps the row order so far and can only add a row at its end |
| IngredientForm.CollectExtends | src/utils/actions.ts:89-108 | later entries keep the order built from earlier ones as a prefix |
| IngredientForm.PrefixBefore | src/utils/actions.ts:95-97 | in a duplicate-free order extending an earlier one, a row already listed comes before every row added later |
| IngredientForm.FirstAppearanceOrder | src/utils/actions.ts:89-110 | rows come out in order of first appearance: a row named within the first k entries is sent before every row first named after them |
| IngredientForm.FirstAppearanceNotIndexOrder | src/utils/actions.ts:110 | the order is not index order: row 2 named before row 1 is sent first |
| IngredientForm.LeadingZerosMerge | src/utils/actions.ts:92 | `ingredients[01]` names row 1 |
| IngredientForm.EmitExactlyKept | src/utils/actions.ts:110-118 | exactly the rows with positive id and quantity are sent, each with a non-empty unit |
| IngredientForm.AbsorbRowEntries | src/pages/DishForm.tsx:180-218 | a new row's three entries append it with the submitted values |
| IngredientForm.CollectAppendThree | src/utils/actions.ts:89 | absorbing three more entries is absorbing them one by one |
| IngredientForm.FormRoundTrip | src/pages/DishForm.tsx:180-218 | parsing what the form submits gives one row per form row, in order, with its values |
| FiltersSlice.InitialFiltersNothing | src/store/slices/filtersSlice.ts:21-33 | the initial state has empty queries, no ingredient, no limits, status `ALL` in both halves |
| FiltersSlice.DishSettersChangeOwnField | src/store/slices/filtersSlice.ts:40-54 | each dish setter changes exactly its own field and leaves the admin half alone |
| FiltersSlice.AdminSettersChangeOwnField | src/store/slices/filtersSlice.ts:60-65 | each admin setter changes exactly its own field and leaves the dish half alone |
| FiltersSlice.HalvesIndependent | src/store/slices/filtersSlice.ts:38-68 | a dish action never touches the admin half and an admin action never the dish half |
| FiltersSlice.DishAndAdminActionsCommute | src/store/slices/filtersSlice.ts:38-68 | a dish action and an admin action commute |
| FiltersSlice.ResetsRestoreInitial | src/store/slices/filtersSlice.ts:55-68 | each reset restores its half, keeps the other, is idempotent; both give the initial state |
| FiltersSlice.LastSettingWins | src/store/slices/filtersSlice.ts:40-68 | of two settings of the same field the last wins, so every action is idempotent |
| FiltersSlice.FiltersStore.constructor | src/store/slices/filtersSlice.ts:21-33 | the store starts in the initial state |
| FiltersSlice.FiltersStore.SetDishSearchQuery | src/store/slices/filtersSlice.ts:40-42 | the state becomes the reducer's result for this action |
| FiltersSlice.FiltersStore.SetDishSelectedIngredient | src/store/slices/filtersSlice.ts:43-45 | the state becomes the reducer's result for this action |
| FiltersSlice.FiltersStore.SetDishMaxGlycemicIndex | src/store/slices/filtersSlice.ts:46-48 | the state becomes the reducer's result for this action |
| FiltersSlice.FiltersStore.SetDishMaxCalories | src/store/slices/filtersSlice.ts:49-51 | the state becomes the reducer's result for this action |
| FiltersSlice.FiltersStore.SetDishStatusFilter | src/store/slices/filtersSlice.ts:52-54 | the state becomes the reducer's result for this action |
| FiltersSlice.FiltersStore.ResetDishFilters | src/store/slices/filtersSlice.ts:55-57 | the state becomes the reducer's result for this action |
| FiltersSlice.FiltersStore.SetAdminSearchQuery | src/store/slices/filtersSlice.ts:60-62 | the state becomes the reducer's result for this action |
| FiltersSlice.FiltersStore.SetAdminStatusFilter | src/store/slices/filtersSlice.ts:63-65 | the state becomes the reducer's result for this action |
| FiltersSlice.FiltersStore.ResetAdminFilters | src/store/slices/filtersSlice.ts:66-68 | the state becomes the reducer's result for this action |
| AdminPanel.FilteredDishes | src/pages/AdminPanel.tsx:119-134 | every dish listed passes the status and query tests |
| AdminPanel.FilteredUsers | src/pages/AdminPanel.tsx:137-147 | every user listed passes the query test |
| AdminPanel.FilteredListsAreSublists | src/pages/AdminPanel.tsx:119-147 | both lists are order-preserving sublists holding exactly the inputs that pass |
| AdminPanel.StatusFilterExcludes | src/pages/AdminPanel.tsx:121-123 | a status other than `ALL` excludes every dish of another status, whatever the query |
| AdminPanel.BlankQueryFiltersNothing | src/pages/AdminPanel.tsx:125-138 | a blank query keeps every dish of the selected status and every user |
| AdminPanel.QueryMatchesFields | src/pages/AdminPanel.tsx:126-133 | with a non-blank query a dish of the selected status is listed exactly when the lowercased, untrimmed query occurs in its name, description, author name or email, or id |
| AdminPanel.RoleLabelContainsQuery | src/pages/AdminPanel.tsx:144-145 | an administrator is found through the role exactly when the label contains the query, never for a query longer than the label |
| DishList.Factor | src/pages/DishList.tsx:28-39 | the factor is at least 1, and it is the table's rate when that rate is non-zero |
| DishList.UnitOf | src/pages/DishList.tsx:49 | a missing unit reads as `г`; the unit is never empty |
| DishList.ContributionOf | src/pages/DishList.tsx:47-66 | one row adds nothing when it weighs nothing, else its weight, scaled index, bread units and calories from a positive per-100 g value |
| DishList.AddIngredient | src/pages/DishList.tsx:47-66 | the running sums afterwards are the sums before plus the row's contribution |
| DishList.CalculateTotals | src/pages/DishList.tsx:41-66 | the loop yields the sum of every row's contribution |
| DishList.AvailableDishes | src/pages/DishList.tsx:152-157 | an administrator sees every dish, anyone else only accepted ones |
| DishList.Listing | src/pages/DishList.tsx:159-187 | every listed dish is available and passes status (admins only), name, ingredient and threshold tests |
| DishList.Shorten | src/pages/DishList.tsx:366-368 | up to 100 characters unchanged; longer gives the first 100 and `...` |
| DishList.ConversionFactors | src/pages/DishList.tsx:28-39 | the table's factors; `шт` and unknown units get factor 1 |
| DishList.SkippedExactlyWhenQuantityNotPositive | src/pages/DishList.tsx:52 | a row is skipped exactly when its quantity is not positive, and then adds nothing |
| DishList.RowWellScaled | src/pages/DishList.tsx:52-65 | one row adds no negative calories or weight, and an index between the row's bounds scaled by its weight |
| DishList.StatsFacts | src/pages/DishList.tsx:52-68 | skipped rows add nothing; calories and weight are non-negative; the average index lies between the rows' extremes, 0 when nothing weighs anything |
| DishList.CaloriesOnlyFromPositive | src/pages/DishList.tsx:57-59 | rows without a positive per-100 g value add no calories |
| DishList.ListingRules | src/pages/DishList.tsx:152-164 | the list is a sublist of the available dishes; non-admins see only accepted dishes and their status filter is ignored |
| DishList.FilterEffects | src/pages/DishList.tsx:166-183 | the initial filters list every available dish; a selected ingredient lists only dishes with that ingredient |
| DishList.ListingMembership | src/pages/DishList.tsx:152-187 | a dish is available exactly when loaded and the viewer is an admin or the dish is accepted, and listed exactly when available and passing every filter test |
| MyDishes.TableFactors | src/pages/MyDishes.tsx:10-21 | `шт` and unknown units keep the quantity; no factor makes a non-negative quantity lighter |
| MyDishes.MissingUnitCountsAsGrams | src/pages/MyDishes.tsx:31-34 | a row without a unit weighs its quantity, and adds nothing if that is not positive |
| MyDishes.RowCaloriesWhenPositive | src/pages/MyDishes.tsx:39-41 | a row adds calories exactly when per-100 g and quantity are both positive |
| MyDishes.NothingWeighedAverageZero | src/pages/MyDishes.tsx:50 | when no row has a positive quantity every sum and the average index are 0 |
| MyDishes.ShortenIdempotent | src/pages/MyDishes.tsx:227-229 | a shortened description has at most 103 characters, keeps the first 100, and shortening it again changes nothing |
| Favorites.Lowered | src/pages/Favorites.tsx:28 | the unit compared is never empty |
| Favorites.ContributionOf | src/pages/Favorites.tsx:45-65 | one row adds nothing when it weighs nothing, else its weight, scaled index, bread units and per-piece or per-100 g calories |
| Favorites.AddIngredient | src/pages/Favorites.tsx:45-65 | the running sums afterwards are the sums before plus the row's contribution |
| Favorites.CalculateTotals | src/pages/Favorites.tsx:39-65 | the loop yields the sum of every row's contribution |
| Favorites.FavoritesPage.constructor | src/pages/Favorites.tsx:77-78 | the page starts with the loaded favourites |
| Favorites.FavoritesPage.RemoveFavorite | src/pages/Favorites.tsx:81-89 | after a successful removal the list is `Without(list, id)`; after a failure it is unchanged |
| Favorites.CaseInsensitive | src/pages/Favorites.tsx:28 | two units with the same lower case weigh the same |
| Favorites.AgreesWithListTable | src/pages/Favorites.tsx:27-37 | outside `кг`, `мл` and `шт` this table agrees with the list page's |
| Favorites.WhereTablesDiffer | src/pages/Favorites.tsx:30-32 | `кг` is 1000 here and 1 there; `мл` the density here; `шт` the piece weight here, 0 without one |
| Favorites.PieceWithoutWeightSkipped | src/pages/Favorites.tsx:32-53 | a piece row with no piece weight weighs nothing and adds nothing, calories per piece included |
| Favorites.RowCalories | src/pages/Favorites.tsx:57-61 | per-piece calories for a row written `шт` with a per-piece value, else from a positive per-100 g value, else none |
| Favorites.WeightOfCountedRows | src/pages/Favorites.tsx:53-55 | rows that weigh nothing add nothing, and the total weight is never negative |
| Favorites.WithoutRemovesExactly | src/pages/Favorites.tsx:84 | removal drops exactly the dishes with that id, keeps the others in order, and is idempotent |
| DishDetail.PermissionFlags | src/pages/DishDetail.tsx:283-289 | `isOwner` holds exactly for a signed-in author of the dish |
| DishDetail.CanEditIsTheEditRule | src/pages/DishDetail.tsx:289 | `canEdit` holds exactly for a user allowed by the edit rule of the update action and the form loader |
| DishDetail.FlagRules | src/pages/DishDetail.tsx:283-289 | `canDelete` iff owner or admin; `canUpdate` iff owner of an accepted dish; a non-admin never has both `canUpdate` and `canEdit` |
| DishDetail.UnavailableRule | src/pages/DishDetail.tsx:292-313 | the unavailable view is shown exactly to non-admin non-authors of a non-accepted dish, and they have no action |
| DishDetail.StatusButtonRules | src/pages/DishDetail.tsx:634-678 | admins get accepted, pending, rejected buttons in order; a button is disabled exactly for the current status or while submitting; others get none |
| DishDetail.ConversionSigns | src/pages/DishDetail.tsx:13-23 | with no negative factors a non-negative quantity never weighs less than nothing; grams, `g`, `гр` and unknown units weigh the quantity |
| DishDetail.RowWellScaled | src/pages/DishDetail.tsx:25-54 | one row adds no negative calories or weight, and an index between the row's bounds scaled by its weight |
| DishDetail.AverageGiBetweenRows | src/pages/DishDetail.tsx:25-64 | calories and weight are non-negative; the average index lies between the rows' extremes, 0 when nothing weighs anything |
| DishDetail.FavoriteToggle.constructor | src/pages/DishDetail.tsx:226-227 | not a favourite, not loading |
| DishDetail.FavoriteToggle.CheckFavorite | src/pages/DishDetail.tsx:228-238 | the server's answer sets the flag; a failure leaves it |
| DishDetail.FavoriteToggle.BeginToggle | src/pages/DishDetail.tsx:241-252 | a click while loading does nothing; otherwise loading starts and removal or addition is sent as the flag says |
| DishDetail.FavoriteToggle.EndToggle | src/pages/DishDetail.tsx:248-261 | on success the flag becomes what was asked; on failure it is unchanged; loading always ends |
| DishForm.InitialRows | src/pages/DishForm.tsx:22-32 | no dish gives one new row; a dish gives one row per ingredient row, in order |
| DishForm.Find | src/pages/DishForm.tsx:36 | the ingredient found has the id and is in the list; none exactly when no ingredient has it |
| DishForm.IngredientUnit | src/pages/DishForm.tsx:35-39 | `г` for id 0, an unknown id or an ingredient without a unit; otherwise the ingredient's unit |
| DishForm.QuantityOf | src/pages/DishForm.tsx:206-210 | `NaN` becomes 0, a number is kept |
| DishForm.InitialRowsHaveUnits | src/pages/DishForm.tsx:27-32 | every initial row has a unit; a dish with no ingredients starts with no rows |
| DishForm.AddThenRemoveLast | src/pages/DishForm.tsx:44-52 | adding a row then removing the last gives the rows back; removing a row keeps the others in order |
| DishForm.IngredientRows.constructor | src/pages/DishForm.tsx:22-32 | the rows start as `InitialRows` |
| DishForm.IngredientRows.AddIngredient | src/pages/DishForm.tsx:44-46 | a new row is appended and the others are unchanged |
| DishForm.IngredientRows.RemoveIngredient | src/pages/DishForm.tsx:48-52 | row `index` is removed when there is more than one row, otherwise nothing changes |
| DishForm.IngredientRows.SetIngredientId | src/pages/DishForm.tsx:181-190 | the row gets the id, and the ingredient's unit only when the id is positive |
| DishForm.IngredientRows.SetQuantity | src/pages/DishForm.tsx:206-210 | the row gets the typed quantity, 0 for `NaN`; no other row changes |
| DishForm.IngredientRows.SetUnit | src/pages/DishForm.tsx:219-223 | the row gets the chosen unit; no other row changes |
| DishService.GetAllDishesUrl | src/utils/services/dish.service.ts:74-81 | the conditional appends build exactly `AllDishesUrl` |
| DishService.NoFilterNoQuery | src/utils/services/dish.service.ts:79-80 | no applicable filter gives `/dishes` with no `?`, and only then |
| DishService.StatusBeforeAuthor | src/utils/services/dish.service.ts:76-77 | `status` precedes `authorId` in the query |
| DishService.ZeroAuthorOmitted | src/utils/services/dish.service.ts:77 | an author id of 0 is left out like a missing one |
| DishService.DishPathsDistinct | src/utils/services/dish.service.ts:83-128 | different ids give different paths, none equal to `/dishes/favorites` |
| DishService.SubPathsOfDish | src/utils/services/dish.service.ts:99-132 | each per-dish endpoint is `/dishes/<id>` plus its suffix, and different ids give different endpoints |
| Config.BuildImageUrl | src/config.ts:4-9 | null exactly for a missing or empty path |
| Config.BuiltUrlShape | src/config.ts:8 | the URL is the image host, one `/` and the path without its leading `/` |
| Config.LeadingSlashOptional | src/config.ts:8 | `x` and `/x` give the same URL |
| ErrorBoundary.PageFor | src/components/ErrorBoundary.tsx:6-25 | a route error response keeps its status and text, with the fixed messages for 404, 401 and 403; an `Error` gives 500 and its message; anything else the defaults |
| ErrorBoundary.OtherStatusesFallBack | src/components/ErrorBoundary.tsx:21 | for other statuses the message is the body's message, else the status text, else the generic message |
| ErrorBoundary.FixedMessagesDistinct | src/components/ErrorBoundary.tsx:14-19 | the three fixed messages tell 401, 403 and 404 apart |
| ErrorBoundary.FromResponse | src/utils/loaders.ts:60-74 | definition of the router's behaviour, not a property: a thrown loader response reaches the page with its status, no status text and no body message |
| ErrorBoundary.LoaderFailuresOnErrorPage | src/utils/loaders.ts:60-74 | a missing dish shows 404 and the not-found message; a failed load shows 500 and the generic message |
| Domain.Redirect | src/utils/loaders.ts:10 | definition of the router's `redirect`, not a property: a 302 response with that location |
| Domain.StatusNameInjective | src/utils/services/dish.service.ts:61 | different statuses have different wire names |
| DishStats.AverageGi | src/pages/DishList.tsx:68 | the average index is the scaled sum over the weight, 0 when nothing weighs anything |
| DishStats.SkippedRowsAddNothing | src/pages/DishList.tsx:52 | dropping the rows that add nothing leaves the sums unchanged |
| DishStats.SumWellScaled | src/pages/DishList.tsx:47-66 | sums of well-scaled rows are well scaled |
| DishStats.AverageGiWithin | src/pages/DishList.tsx:68 | the average of a well-scaled sum with positive weight lies between the bounds |

## Left out

- Rounding: `Math.round` of calories, index and bread units is not modelled; the dish list's threshold filter takes the rounded figures as a parameter (`statsOf`).
- Numbers are reals: JavaScript floating point, `NaN` in the sums and integer ids beyond 2^53 are not modelled; `Number(text)` is a parameter.
- String lengths count characters, not UTF-16 code units; `toLowerCase` is a parameter, so no Unicode case mapping is modelled.
- The list page's rate table is looked up in a plain object: inherited keys such as `constructor` are not modelled.
- `fetch`, axios, `localStorage` beyond keys and values, `window.location` (its pathname is a parameter), timers and real concurrency are not modelled: a refresh is a call and a later settle, and the interleaving of two requests' events is not explored.
- Alerts, `console` output, confirmation dialogs, `revalidate` and all JSX rendering are left out, including the ingredient preview text of the list cards.
- The React state updates in `DishForm` are modelled as in-place updates of one row list; stale closures and the mutation of the row object in place (which shares it with the previous state) are not captured.
- The router's conversion of a thrown `Response` to a route error response is taken to give an empty status text and a body without `message` (`ErrorBoundary.FromResponse`).
- The services other than dish paths (users, ingredients, nutrients) are only request names; `src/utils/services/user.service.ts` and the other service bodies are not part of this model.
- `AuthInitializer`, `Layout`, `Login`, `Register`, `AuthContext` and the store setup are not part of this model, beyond what `useAuth` forwards.
- A caught error's `message` is a string or absent; a non-string `message` reaching `includes` is not modelled.
- The wording of `jwtDecode`'s error messages is the library's and is not modelled: a rejected token may come back with any message, and the lemmas hold for every one.

## Findings

| source | as written | input that shows it | evidently intended | confidence | as-written member | corrected member |
|---|---|---|---|---|---|---|
| src/utils/loaders.ts:67-75 | the catch clause of `dishLoader` rethrows only 401s (as a redirect) and 404s; the `/login` redirect thrown by `requireAuth` inside the `try` has status 302 and becomes a 500 "Error loading dish" | no stored `token`: visiting `/dishes/1` shows the error page with status 500 | rethrow the redirect, as `dishesLoader` and `dishFormLoader` do, so the visitor is sent to `/login` | not executed | Loaders.DishLoaderOutcomes | Loaders.DishLoaderCorrectedGoesToLogin |
