/** The token store: the access/refresh pair cached in memory and mirrored in
    `localStorage`, the set of access-token listeners, and the single-flight
    silent refresh. The pure functions below give each operation's effect on
    a `StoreState`; the class `TokenStore` performs the same operations in
    place and is proved against them. */
module AuthTokens {
  import opened Wrappers
  import opened Strings
  import opened BrowserStorage

  const TOKEN_KEY: string := "token"
  const REFRESH_KEY: string := "refreshToken"

  /** A registered listener, identified by an opaque number. */
  type ListenerId = nat

  /** One listener call: `listener(token)`. */
  datatype Notification = Notification(listener: ListenerId, token: Option<string>)

  /** What the refresh endpoint answers: an ok response with the new pair, a
      non-ok response, or a transport failure (the `fetch` rejects). */
  datatype RefreshReply =
    | RefreshOk(accessToken: string, refreshToken: string)
    | RefreshNotOk
    | NetworkFailure(message: string)

  /** What `refreshAccessToken()` hands its caller: an already settled value,
      or the pending promise of refresh request number `request` (1-based). */
  datatype RefreshHandle = Resolved(token: Option<string>) | Shared(request: nat)

  /** How a refresh request settles: with a token or `null`, or rejected. */
  datatype RefreshOutcome = Settled(token: Option<string>) | Rejected(message: string)

  /** Everything the module holds. `requests` lists the refresh token sent in
      each refresh request, oldest first; `outcomes` lists how each settled
      request ended; `delivered` is every listener call so far. */
  datatype StoreState = StoreState(
    storage: map<string, string>,
    access: Option<string>,
    refresh: Option<string>,
    listeners: seq<ListenerId>,
    delivered: seq<Notification>,
    inFlight: bool,
    requests: seq<string>,
    outcomes: seq<RefreshOutcome>)

  function Lookup(m: map<string, string>, key: string): Option<string> {
    if key in m then Some(m[key]) else None
  }

  /** The module's state when it is first loaded: both tokens read from
      storage, no listener, no refresh. */
  function Initial(storage: map<string, string>): StoreState {
    StoreState(storage, Lookup(storage, TOKEN_KEY), Lookup(storage, REFRESH_KEY), [], [], false, [], [])
  }

  /** The cache and storage hold the same pair. */
  predicate Mirrored(s: StoreState) {
    Lookup(s.storage, TOKEN_KEY) == s.access && Lookup(s.storage, REFRESH_KEY) == s.refresh
  }

  predicate NoDup(ls: seq<ListenerId>) {
    forall i, j :: 0 <= i < j < |ls| ==> ls[i] != ls[j]
  }

  /** The store's own invariants: each listener registered once, and one
      outcome per settled request, the in-flight one excepted. */
  predicate Coherent(s: StoreState) {
    NoDup(s.listeners) && |s.outcomes| + (if s.inFlight then 1 else 0) == |s.requests|
  }

  /** `notify(token)`: one call per registered listener, in registration
      order. */
  function Broadcast(ls: seq<ListenerId>, t: Option<string>): (ns: seq<Notification>)
    ensures |ns| == |ls|
    ensures forall i :: 0 <= i < |ls| ==> ns[i] == Notification(ls[i], t)
    decreases |ls|
  {
    if ls == [] then [] else [Notification(ls[0], t)] + Broadcast(ls[1..], t)
  }

  /** One more listener adds its call at the end. */
  lemma BroadcastSnoc(ls: seq<ListenerId>, l: ListenerId, t: Option<string>)
    ensures Broadcast(ls + [l], t) == Broadcast(ls, t) + [Notification(l, t)]
  {
    var a, b := Broadcast(ls + [l], t), Broadcast(ls, t) + [Notification(l, t)];
    assert |a| == |b|;
    forall i | 0 <= i < |a| ensures a[i] == b[i] {
      if i < |ls| {
        assert (ls + [l])[i] == ls[i];
      }
    }
  }

  /** Number of calls listener `l` received in `ns`. */
  function CallsTo(ns: seq<Notification>, l: ListenerId): nat
    decreases |ns|
  {
    if ns == [] then 0 else (if ns[0].listener == l then 1 else 0) + CallsTo(ns[1..], l)
  }

  /** `setTokens(a, r)`: the access token always, the refresh token only when
      `r` is truthy; then every listener hears `a`. */
  function WithTokens(s: StoreState, a: string, r: Option<string>): StoreState {
    var storage := if Present(r) then s.storage[TOKEN_KEY := a][REFRESH_KEY := r.value]
                   else s.storage[TOKEN_KEY := a];
    s.(storage := storage,
       access := Some(a),
       refresh := if Present(r) then r else s.refresh,
       delivered := s.delivered + Broadcast(s.listeners, Some(a)))
  }

  /** `clearStoredTokens()`: both tokens gone from cache and storage; every
      listener hears `null`. */
  function Cleared(s: StoreState): StoreState {
    s.(storage := s.storage - {TOKEN_KEY, REFRESH_KEY},
       access := None,
       refresh := None,
       delivered := s.delivered + Broadcast(s.listeners, None))
  }

  /** `listeners.add(l)`: a listener already in the set keeps its place. */
  function WithListener(s: StoreState, l: ListenerId): StoreState {
    if l in s.listeners then s else s.(listeners := s.listeners + [l])
  }

  function Without(ls: seq<ListenerId>, l: ListenerId): (r: seq<ListenerId>)
    ensures l !in r
    ensures forall x :: x in r <==> x in ls && x != l
    decreases |ls|
  {
    if ls == [] then []
    else if ls[0] == l then Without(ls[1..], l)
    else [ls[0]] + Without(ls[1..], l)
  }

  /** The function `subscribeToAccessToken` returns: `listeners.delete(l)`. */
  function WithoutListener(s: StoreState, l: ListenerId): StoreState {
    s.(listeners := Without(s.listeners, l))
  }

  /** `refreshAccessToken()` up to its first suspension: no refresh token
      settles at once with `null`; otherwise a new request is issued unless
      one is already pending, and the caller shares the pending one. */
  function CallRefresh(s: StoreState): (StoreState, RefreshHandle) {
    if !Present(s.refresh) then (s, Resolved(None))
    else if !s.inFlight then
      (s.(inFlight := true, requests := s.requests + [s.refresh.value]), Shared(|s.requests| + 1))
    else (s, Shared(|s.requests|))
  }

  /** The pending refresh request settles: a non-ok reply clears the tokens
      and yields `null`, an ok reply stores the new pair and yields the new
      access token, a transport failure rejects. In every case the in-flight
      marker is released. */
  function SettleRefresh(s: StoreState, reply: RefreshReply): (StoreState, RefreshOutcome)
    requires s.inFlight
  {
    var (t, o) := match reply
      case RefreshNotOk => (Cleared(s), Settled(None))
      case RefreshOk(a, r) => (WithTokens(s, a, Some(r)), Settled(Some(a)))
      case NetworkFailure(m) => (s, Rejected(m));
    (t.(inFlight := false, outcomes := t.outcomes + [o]), o)
  }

  /** The value a handle eventually yields, once its request has settled. */
  function Await(s: StoreState, h: RefreshHandle): Option<RefreshOutcome> {
    match h
    case Resolved(t) => Some(Settled(t))
    case Shared(n) => if 1 <= n <= |s.outcomes| then Some(s.outcomes[n - 1]) else None
  }

  /** Events reaching the store: a caller invokes `refreshAccessToken()`, or
      the pending refresh request settles. */
  datatype StoreEvent = Call | Settle(reply: RefreshReply)

  /** Runs a sequence of events; returns the final state and the handle each
      `Call` received, in order. A settle with nothing pending cannot happen
      and is ignored. */
  function Run(s: StoreState, evs: seq<StoreEvent>): (StoreState, seq<RefreshHandle>)
    decreases |evs|
  {
    if evs == [] then (s, [])
    else match evs[0]
      case Call =>
        var (t, h) := CallRefresh(s);
        var (u, hs) := Run(t, evs[1..]);
        (u, [h] + hs)
      case Settle(reply) =>
        if s.inFlight then Run(SettleRefresh(s, reply).0, evs[1..]) else Run(s, evs[1..])
  }

  function Calls(n: nat): (evs: seq<StoreEvent>)
    ensures |evs| == n && forall i :: 0 <= i < n ==> evs[i] == Call
  {
    seq(n, _ => Call)
  }

  // ----- Properties of the specification -----

  /** Read-after-write: after `setTokens(a, r)` with a truthy `r` both getters
      and both storage keys hold the new pair. */
  lemma SetTokensReadAfterWrite(s: StoreState, a: string, r: string)
    requires r != ""
    ensures var t := WithTokens(s, a, Some(r));
      t.access == Some(a) && t.refresh == Some(r) &&
      Lookup(t.storage, TOKEN_KEY) == Some(a) && Lookup(t.storage, REFRESH_KEY) == Some(r)
  {
  }

  /** `setTokens(a)` without a truthy refresh token replaces only the access
      token: the cached and stored refresh token are left as they were. */
  lemma SetTokensKeepsRefresh(s: StoreState, a: string, r: Option<string>)
    requires !Present(r)
    ensures var t := WithTokens(s, a, r);
      t.access == Some(a) && Lookup(t.storage, TOKEN_KEY) == Some(a) &&
      t.refresh == s.refresh && Lookup(t.storage, REFRESH_KEY) == Lookup(s.storage, REFRESH_KEY) &&
      forall k :: k != TOKEN_KEY ==> Lookup(t.storage, k) == Lookup(s.storage, k)
  {
  }

  /** `clearStoredTokens()` leaves both getters `null` and both keys gone,
      and touches no other key. */
  lemma ClearRemovesBoth(s: StoreState)
    ensures var t := Cleared(s);
      t.access == None && t.refresh == None &&
      TOKEN_KEY !in t.storage && REFRESH_KEY !in t.storage &&
      forall k :: k != TOKEN_KEY && k != REFRESH_KEY ==> Lookup(t.storage, k) == Lookup(s.storage, k)
  {
  }

  /** Cache and storage start out equal, and `setTokens`/`clearStoredTokens`
      keep them equal: the module itself never tears the pair. */
  lemma MirroredPreserved(s: StoreState, a: string, r: Option<string>, storage: map<string, string>)
    ensures Mirrored(Initial(storage))
    ensures Mirrored(s) ==> Mirrored(WithTokens(s, a, r)) && Mirrored(Cleared(s))
  {
  }

  /** Each registered listener is called exactly once per broadcast, and an
      unregistered one not at all. */
  lemma {:induction false} BroadcastReachesEachOnce(ls: seq<ListenerId>, t: Option<string>, l: ListenerId)
    requires NoDup(ls)
    ensures CallsTo(Broadcast(ls, t), l) == if l in ls then 1 else 0
    decreases |ls|
  {
    if ls != [] {
      assert NoDup(ls[1..]) by {
        forall i, j | 0 <= i < j < |ls[1..]| ensures ls[1..][i] != ls[1..][j] {
          assert ls[1..][i] == ls[i + 1] && ls[1..][j] == ls[j + 1];
        }
      }
      BroadcastReachesEachOnce(ls[1..], t, l);
      var b := Broadcast(ls, t);
      assert b[1..] == Broadcast(ls[1..], t);
      if ls[0] == l {
        assert l !in ls[1..] by {
          forall k | 0 <= k < |ls[1..]| ensures ls[1..][k] != l {
            assert ls[1..][k] == ls[k + 1];
          }
        }
      }
      assert l in ls <==> ls[0] == l || l in ls[1..];
    }
  }

  /** Every `setTokens` and every `clearStoredTokens` notifies each registered
      listener once, with the new value, even when the value is unchanged. */
  lemma EveryChangeNotifiesEachListener(s: StoreState, a: string, r: Option<string>, l: ListenerId)
    requires NoDup(s.listeners) && l in s.listeners
    ensures CallsTo(WithTokens(s, a, r).delivered[|s.delivered|..], l) == 1
    ensures CallsTo(Cleared(s).delivered[|s.delivered|..], l) == 1
  {
    BroadcastReachesEachOnce(s.listeners, Some(a), l);
    BroadcastReachesEachOnce(s.listeners, None, l);
    assert WithTokens(s, a, r).delivered[|s.delivered|..] == Broadcast(s.listeners, Some(a));
    assert Cleared(s).delivered[|s.delivered|..] == Broadcast(s.listeners, None);
  }

  /** Adding a listener twice registers it once: the set semantics. */
  lemma SubscribeIdempotent(s: StoreState, l: ListenerId)
    requires NoDup(s.listeners)
    ensures WithListener(WithListener(s, l), l) == WithListener(s, l)
    ensures NoDup(WithListener(s, l).listeners) && l in WithListener(s, l).listeners
  {
  }

  /** After unsubscribing, no later change reaches the listener. */
  lemma {:induction false} UnsubscribedHearsNothing(s: StoreState, l: ListenerId, t: Option<string>)
    ensures CallsTo(Broadcast(WithoutListener(s, l).listeners, t), l) == 0
  {
    NotListedNotCalled(WithoutListener(s, l).listeners, t, l);
  }

  lemma {:induction false} NotListedNotCalled(ls: seq<ListenerId>, t: Option<string>, l: ListenerId)
    requires l !in ls
    ensures CallsTo(Broadcast(ls, t), l) == 0
    decreases |ls|
  {
    if ls != [] {
      NotListedNotCalled(ls[1..], t, l);
      assert Broadcast(ls, t)[1..] == Broadcast(ls[1..], t);
    }
  }

  /** Without a refresh token a refresh settles to `null` at once, issues no
      request and leaves every part of the state, the marker included, as it
      was. */
  lemma RefreshWithoutTokenIsInert(s: StoreState)
    requires !Present(s.refresh)
    ensures CallRefresh(s) == (s, Resolved(None))
  {
  }

  /** While a request is pending (and a refresh token is still present),
      further callers share it and nothing is sent. */
  lemma {:induction false} PendingCallsJoin(s: StoreState, n: nat)
    requires Present(s.refresh) && s.inFlight
    ensures Run(s, Calls(n)) == (s, seq(n, _ => Shared(|s.requests|)))
    decreases n
  {
    var h := Shared(|s.requests|);
    if n > 0 {
      var evs := Calls(n);
      assert evs[0] == Call && evs[1..] == Calls(n - 1);
      assert CallRefresh(s) == (s, h);
      PendingCallsJoin(s, n - 1);
      assert Run(s, evs) == (s, [h] + seq(n - 1, _ => h));
      assert [h] + seq(n - 1, _ => h) == seq(n, _ => h);
    } else {
      assert Calls(n) == [];
      assert seq(n, _ => h) == [];
    }
  }

  /** Single flight: `n >= 1` back-to-back calls with no refresh pending send
      exactly one request, carrying the current refresh token, and every
      caller is handed that same request. */
  lemma SingleFlight(s: StoreState, n: nat)
    requires Present(s.refresh) && !s.inFlight && n >= 1
    ensures var (t, hs) := Run(s, Calls(n));
      t.requests == s.requests + [s.refresh.value] && t.inFlight &&
      |hs| == n && forall i :: 0 <= i < n ==> hs[i] == Shared(|s.requests| + 1)
  {
    var (s1, h1) := CallRefresh(s);
    assert Calls(n)[1..] == Calls(n - 1);
    PendingCallsJoin(s1, n - 1);
  }

  /** All callers sharing a request observe the identical settled value:
      after `n` back-to-back calls and the settle of their one request,
      every caller's handle yields the settle's outcome. */
  lemma SharersSeeOneValue(s: StoreState, n: nat, reply: RefreshReply)
    requires Present(s.refresh) && !s.inFlight && Coherent(s) && n >= 1
    ensures var (t, hs) := Run(s, Calls(n));
      t.inFlight && |hs| == n &&
      var (u, o) := SettleRefresh(t, reply);
      forall i :: 0 <= i < n ==> Await(u, hs[i]) == Some(o)
  {
    var (s1, h1) := CallRefresh(s);
    assert Calls(n)[1..] == Calls(n - 1);
    PendingCallsJoin(s1, n - 1);
    SingleFlight(s, n);
    TransitionsKeepCoherent(s, "", None, 0, reply);
  }

  /** How a settle ends: the marker is always released; a non-ok reply clears
      both tokens and yields `null`; an ok reply stores the pair through
      `setTokens` and yields the new access token; a transport failure
      rejects and leaves the tokens alone. */
  lemma SettleEffects(s: StoreState, reply: RefreshReply)
    requires s.inFlight
    ensures var (t, o) := SettleRefresh(s, reply);
      !t.inFlight && t.requests == s.requests && t.outcomes == s.outcomes + [o] &&
      (reply.RefreshNotOk? ==> o == Settled(None) && t.access == None && t.refresh == None) &&
      (reply.RefreshOk? ==>
         (o == Settled(Some(reply.accessToken)) && t.access == Some(reply.accessToken) &&
          t.refresh == (if reply.refreshToken != "" then Some(reply.refreshToken) else s.refresh))) &&
      (reply.NetworkFailure? ==> o == Rejected(reply.message) && t.access == s.access && t.refresh == s.refresh)
  {
  }

  /** Every transition keeps the store coherent. */
  lemma TransitionsKeepCoherent(s: StoreState, a: string, r: Option<string>, l: ListenerId, reply: RefreshReply)
    requires Coherent(s)
    ensures Coherent(WithTokens(s, a, r)) && Coherent(Cleared(s))
    ensures Coherent(WithListener(s, l)) && Coherent(WithoutListener(s, l))
    ensures Coherent(CallRefresh(s).0)
    ensures s.inFlight ==> Coherent(SettleRefresh(s, reply).0)
  {
    var ls := s.listeners;
    var w := Without(ls, l);
    WithoutKeepsNoDup(ls, l);
  }

  lemma {:induction false} WithoutKeepsNoDup(ls: seq<ListenerId>, l: ListenerId)
    requires NoDup(ls)
    ensures NoDup(Without(ls, l))
    decreases |ls|
  {
    if ls != [] {
      assert NoDup(ls[1..]) by {
        forall i, j | 0 <= i < j < |ls[1..]| ensures ls[1..][i] != ls[1..][j] {
          assert ls[1..][i] == ls[i + 1] && ls[1..][j] == ls[j + 1];
        }
      }
      WithoutKeepsNoDup(ls[1..], l);
      if ls[0] != l {
        var w := Without(ls[1..], l);
        assert ls[0] !in ls[1..] by {
          forall k | 0 <= k < |ls[1..]| ensures ls[1..][k] != ls[0] {
            assert ls[1..][k] == ls[k + 1];
          }
        }
        assert ls[0] !in w;
        var r := [ls[0]] + w;
        forall i, j | 0 <= i < j < |r| ensures r[i] != r[j] {
          if i == 0 {
            assert r[j] == w[j - 1];
          } else {
            assert r[i] == w[i - 1] && r[j] == w[j - 1];
          }
        }
      }
    }
  }

  /** The token store as the module holds it: two cached tokens, the shared
      storage, the listener set and the refresh marker. */
  class TokenStore {
    const storage: Storage
    var access: Option<string>
    var refresh: Option<string>
    var listeners: seq<ListenerId>
    var delivered: seq<Notification>
    var inFlight: bool
    var requests: seq<string>
    var outcomes: seq<RefreshOutcome>

    /** The abstract state the pure functions above speak about. */
    function State(): StoreState
      reads this, storage
    {
      StoreState(storage.entries, access, refresh, listeners, delivered, inFlight, requests, outcomes)
    }

    predicate Valid()
      reads this, storage
    {
      Coherent(State())
    }

    /** Loading the module reads both keys from storage. */
    constructor (storage: Storage)
      ensures this.storage == storage
      ensures State() == Initial(storage.entries) && Valid()
    {
      this.storage := storage;
      access := storage.GetItem(TOKEN_KEY);
      refresh := storage.GetItem(REFRESH_KEY);
      listeners, delivered := [], [];
      inFlight, requests, outcomes := false, [], [];
    }

    /** `notify(token)`: the loop over the listener set. */
    method Notify(token: Option<string>)
      modifies this`delivered
      ensures delivered == old(delivered) + Broadcast(listeners, token)
    {
      var ls, start := listeners, delivered;
      var i := 0;
      while i < |ls|
        invariant 0 <= i <= |ls|
        invariant delivered == start + Broadcast(ls[..i], token)
      {
        assert ls[..i + 1] == ls[..i] + [ls[i]];
        BroadcastSnoc(ls[..i], ls[i], token);
        delivered := delivered + [Notification(ls[i], token)];
        i := i + 1;
      }
      assert ls[..i] == ls;
    }

    method SetTokens(a: string, r: Option<string>)
      requires Valid()
      modifies this, storage
      ensures State() == WithTokens(old(State()), a, r) && Valid()
    {
      access := Some(a);
      storage.SetItem(TOKEN_KEY, a);
      if Present(r) {
        refresh := r;
        storage.SetItem(REFRESH_KEY, r.value);
      }
      Notify(access);
    }

    method ClearStoredTokens()
      requires Valid()
      modifies this, storage
      ensures State() == Cleared(old(State())) && Valid()
    {
      access := None;
      refresh := None;
      storage.RemoveItem(TOKEN_KEY);
      storage.RemoveItem(REFRESH_KEY);
      assert storage.entries == old(storage.entries) - {TOKEN_KEY, REFRESH_KEY};
      Notify(None);
    }

    /** `subscribeToAccessToken(l)`; the returned unsubscribe function is
        `Unsubscribe(l)`. */
    method SubscribeToAccessToken(l: ListenerId)
      requires Valid()
      modifies this`listeners
      ensures State() == WithListener(old(State()), l) && Valid()
    {
      if l !in listeners {
        listeners := listeners + [l];
      }
    }

    method Unsubscribe(l: ListenerId)
      requires Valid()
      modifies this`listeners
      ensures State() == WithoutListener(old(State()), l) && Valid()
    {
      WithoutKeepsNoDup(listeners, l);
      listeners := Without(listeners, l);
    }

    /** `refreshAccessToken()` up to the network call. */
    method RefreshAccessToken() returns (h: RefreshHandle)
      requires Valid()
      modifies this`inFlight, this`requests
      ensures (State(), h) == CallRefresh(old(State())) && Valid()
    {
      if !Present(refresh) {
        return Resolved(None);
      }
      if !inFlight {
        inFlight := true;
        requests := requests + [refresh.value];
        h := Shared(|requests|);
      } else {
        h := Shared(|requests|);
      }
    }

    /** The pending refresh request settles with `reply`; the `finally`
        clause releases the marker. */
    method Settle(reply: RefreshReply) returns (o: RefreshOutcome)
      requires Valid() && inFlight
      modifies this, storage
      ensures (State(), o) == SettleRefresh(old(State()), reply) && Valid()
    {
      match reply {
        case RefreshNotOk =>
          ClearStoredTokens();
          o := Settled(None);
        case RefreshOk(a, r) =>
          SetTokens(a, Some(r));
          o := Settled(Some(a));
        case NetworkFailure(m) =>
          o := Rejected(m);
      }
      inFlight := false;
      outcomes := outcomes + [o];
    }
  }
}
