/** `BaseAPIService`: one axios instance with a default `Authorization`
    header, and the response interceptor that answers a 401 by refreshing the
    access token and re-sending the request once. The life of one request is
    the event machine `Exchange`/`Step`/`Run`; the class `ApiInstance`
    performs each step in place, deciding with the same `OnError` and
    `OnRefresh` functions. */
module Api {
  import opened Wrappers
  import opened Strings
  import opened AuthTokens

  const TIMEOUT_MS: nat := 30000
  const LOGIN_PATH: string := "/login"
  const REGISTER_PATH: string := "/register"

  /** The `Authorization` header value for token `t`. */
  function Bearer(t: string): string {
    "Bearer " + t
  }

  /** `handleUnauthorized` sends the browser to the login page unless it is
      already on the login or the registration page. */
  predicate RedirectsToLogin(pathname: string) {
    pathname != LOGIN_PATH && pathname != REGISTER_PATH
  }

  /** A failed exchange as axios reports it: the response status and the
      `message` of the response body when there was a response, and the
      transport error's own `message`. */
  datatype HttpError = HttpError(status: Option<int>, bodyMessage: Option<string>, message: string)

  /** What the server sent back: a 2xx response and its body, or an error. */
  datatype HttpReply = Ok(data: string) | Err(error: HttpError)

  /** How the call to the service method ends: the response body, or an
      `Error` with a message. */
  datatype Outcome = Data(body: string) | Thrown(message: string)

  /** The message of the `Error` the interceptor throws:
      `response.data.message || error.message`. */
  function ErrorMessage(e: HttpError): (m: string)
    ensures Present(e.bodyMessage) ==> m == e.bodyMessage.value
    ensures !Present(e.bodyMessage) ==> m == e.message
  {
    if Present(e.bodyMessage) then e.bodyMessage.value else e.message
  }

  /** The interceptor's first decision on a failed request. */
  datatype Decision = AskRefresh | Fail(message: string)

  function OnError(retried: bool, e: HttpError): (d: Decision)
    ensures d == AskRefresh <==> e.status == Some(401) && !retried
    ensures d.Fail? ==> d.message == ErrorMessage(e)
  {
    if e.status == Some(401) && !retried then AskRefresh else Fail(ErrorMessage(e))
  }

  /** The interceptor's decision once `refreshAccessToken()` has settled:
      re-send with a truthy new token, give up through `handleUnauthorized`
      on `null`, or let the refresh's own rejection propagate. */
  datatype Resumption = Resend(token: string) | Unauthorized(message: string) | Propagate(message: string)

  function OnRefresh(o: RefreshOutcome, e: HttpError): (r: Resumption)
    ensures r.Resend? <==> o.Settled? && Present(o.token)
    ensures r.Resend? ==> o.token == Some(r.token)
    ensures r.Unauthorized? <==> o.Settled? && !Present(o.token)
    ensures r.Unauthorized? ==> r.message == ErrorMessage(e)
    ensures r.Propagate? ==> o == Rejected(r.message)
  {
    match o
    case Settled(t) => if Present(t) then Resend(t.value) else Unauthorized(ErrorMessage(e))
    case Rejected(m) => Propagate(m)
  }

  datatype Phase = AwaitingReply | AwaitingRefresh(error: HttpError) | Finished(outcome: Outcome)

  /** One request through one instance: where it stands, its `_retry` flag,
      how many times it was sent, how many refreshes it asked for, the header
      it was last sent with, the instance's default header, how many times it
      cleared the stored tokens, and where it sent the browser. */
  datatype Exchange = Exchange(
    phase: Phase,
    retried: bool,
    sends: nat,
    refreshCalls: nat,
    requestHeader: Option<string>,
    instanceHeader: Option<string>,
    tokenClears: nat,
    navigation: Option<string>)

  /** What can happen to a request in flight: the server answers, or the
      refresh it asked for settles while the browser is at `pathname`. */
  datatype ExchangeEvent = Reply(reply: HttpReply) | RefreshSettled(outcome: RefreshOutcome, pathname: string)

  /** A request just sent with the instance's default header. */
  function Start(header: Option<string>): Exchange {
    Exchange(AwaitingReply, false, 1, 0, header, header, 0, None)
  }

  function Step(x: Exchange, ev: ExchangeEvent): Exchange {
    match x.phase
    case AwaitingReply =>
      (match ev
       case Reply(Ok(data)) => x.(phase := Finished(Data(data)))
       case Reply(Err(e)) =>
         (match OnError(x.retried, e)
          case AskRefresh => x.(phase := AwaitingRefresh(e), retried := true, refreshCalls := x.refreshCalls + 1)
          case Fail(m) => x.(phase := Finished(Thrown(m))))
       case RefreshSettled(_, _) => x)
    case AwaitingRefresh(e) =>
      (match ev
       case RefreshSettled(o, pathname) =>
         (match OnRefresh(o, e)
          case Resend(t) =>
            x.(phase := AwaitingReply, sends := x.sends + 1,
               requestHeader := Some(Bearer(t)), instanceHeader := Some(Bearer(t)))
          case Unauthorized(m) =>
            x.(phase := Finished(Thrown(m)), tokenClears := x.tokenClears + 1, instanceHeader := None,
               navigation := if RedirectsToLogin(pathname) then Some(LOGIN_PATH) else x.navigation)
          case Propagate(m) => x.(phase := Finished(Thrown(m))))
       case Reply(_) => x)
    case Finished(_) => x
  }

  function Run(x: Exchange, evs: seq<ExchangeEvent>): Exchange
    decreases |evs|
  {
    if evs == [] then x else Run(Step(x, evs[0]), evs[1..])
  }

  /** The retry-once invariant: a refresh is asked for exactly when the
      request is marked retried, and each refresh allows one more send and at
      most one token clear. */
  predicate Sane(x: Exchange) {
    x.refreshCalls == (if x.retried then 1 else 0) &&
    1 <= x.sends <= 1 + x.refreshCalls &&
    x.tokenClears <= x.refreshCalls &&
    (x.phase.AwaitingRefresh? ==> x.retried && x.sends == 1 && x.tokenClears == 0) &&
    (x.phase.AwaitingReply? && x.retried ==> x.sends == 2)
  }

  lemma StepKeepsSane(x: Exchange, ev: ExchangeEvent)
    requires Sane(x)
    ensures Sane(Step(x, ev))
  {
  }

  lemma {:induction false} RunKeepsSane(x: Exchange, evs: seq<ExchangeEvent>)
    requires Sane(x)
    ensures Sane(Run(x, evs))
    decreases |evs|
  {
    if evs != [] {
      StepKeepsSane(x, evs[0]);
      RunKeepsSane(Step(x, evs[0]), evs[1..]);
    }
  }

  /** Whatever happens to a request, it is sent at most twice, asks for at
      most one refresh and clears the tokens at most once. */
  lemma RetriedAtMostOnce(header: Option<string>, evs: seq<ExchangeEvent>)
    ensures var y := Run(Start(header), evs);
      y.sends <= 2 && y.refreshCalls <= 1 && y.tokenClears <= 1 &&
      (y.refreshCalls == 1 <==> y.retried) && y.sends <= 1 + y.refreshCalls
  {
    RunKeepsSane(Start(header), evs);
  }

  /** Once settled, a request's outcome never changes. */
  lemma {:induction false} FinishedIsFinal(x: Exchange, evs: seq<ExchangeEvent>)
    requires x.phase.Finished?
    ensures Run(x, evs) == x
    decreases |evs|
  {
    if evs != [] {
      FinishedIsFinal(Step(x, evs[0]), evs[1..]);
    }
  }

  /** A successful response resolves to its body only. */
  lemma SuccessYieldsBody(header: Option<string>, data: string)
    ensures Step(Start(header), Reply(Ok(data))).phase == Finished(Data(data))
  {
  }

  /** A 401 on a fresh request marks it retried and asks for exactly one
      refresh; any other error is thrown at once with the normalised
      message. */
  lemma FirstUnauthorizedAsksRefresh(header: Option<string>, e: HttpError)
    ensures var y := Step(Start(header), Reply(Err(e)));
      (e.status == Some(401) ==> y.phase == AwaitingRefresh(e) && y.retried && y.refreshCalls == 1) &&
      (e.status != Some(401) ==> y.phase == Finished(Thrown(ErrorMessage(e))) && y.refreshCalls == 0)
  {
  }

  /** A 401 on an already retried request neither refreshes nor calls
      `handleUnauthorized`: it is thrown. */
  lemma SecondUnauthorizedThrows(x: Exchange, e: HttpError)
    requires x.phase.AwaitingReply? && x.retried && e.status == Some(401)
    ensures var y := Step(x, Reply(Err(e)));
      y.phase == Finished(Thrown(ErrorMessage(e))) && y.refreshCalls == x.refreshCalls &&
      y.tokenClears == x.tokenClears && y.instanceHeader == x.instanceHeader && y.navigation == x.navigation
  {
  }

  /** The recovered path: a 401, a refresh that yields `t`, then a success.
      The instance and the request both carry `Bearer t`, the request was sent
      twice, and the call resolves to the second response's body. */
  lemma RecoveredRequest(header: Option<string>, e: HttpError, t: string, pathname: string, data: string)
    requires e.status == Some(401) && t != ""
    ensures var y := Run(Start(header), [Reply(Err(e)), RefreshSettled(Settled(Some(t)), pathname), Reply(Ok(data))]);
      y.phase == Finished(Data(data)) && y.sends == 2 && y.refreshCalls == 1 &&
      y.requestHeader == Some(Bearer(t)) && y.instanceHeader == Some(Bearer(t)) && y.tokenClears == 0
  {
    var evs := [Reply(Err(e)), RefreshSettled(Settled(Some(t)), pathname), Reply(Ok(data))];
    var x0 := Start(header);
    var x1 := Step(x0, evs[0]);
    assert x1 == x0.(phase := AwaitingRefresh(e), retried := true, refreshCalls := 1);
    var x2 := Step(x1, evs[1]);
    assert x2 == x1.(phase := AwaitingReply, sends := 2, requestHeader := Some(Bearer(t)), instanceHeader := Some(Bearer(t)));
    var x3 := Step(x2, evs[2]);
    assert x3 == x2.(phase := Finished(Data(data)));
    assert evs[1..][1..][1..] == [];
    assert Run(x0, evs) == Run(x1, evs[1..]) == Run(x2, evs[1..][1..]) == Run(x3, []);
  }

  /** The unrecovered path: a 401 and a refresh that yields `null`. The
      tokens are cleared, the default header removed, the browser sent to the
      login page unless it is on the login or registration page, and an
      `Error` is still thrown. */
  lemma UnrecoveredRequest(header: Option<string>, e: HttpError, pathname: string)
    requires e.status == Some(401)
    ensures var y := Run(Start(header), [Reply(Err(e)), RefreshSettled(Settled(None), pathname)]);
      y.phase == Finished(Thrown(ErrorMessage(e))) && y.tokenClears == 1 && y.instanceHeader == None &&
      y.sends == 1 &&
      (y.navigation == Some(LOGIN_PATH) <==> RedirectsToLogin(pathname))
  {
    var evs := [Reply(Err(e)), RefreshSettled(Settled(None), pathname)];
    var x0 := Start(header);
    var x1 := Step(x0, evs[0]);
    assert x1 == x0.(phase := AwaitingRefresh(e), retried := true, refreshCalls := 1);
    var x2 := Step(x1, evs[1]);
    assert x2 == x1.(phase := Finished(Thrown(ErrorMessage(e))), tokenClears := 1, instanceHeader := None,
                     navigation := if RedirectsToLogin(pathname) then Some(LOGIN_PATH) else None);
    assert evs[1..][1..] == [];
    assert Run(x0, evs) == Run(x1, evs[1..]) == Run(x2, []);
  }

  /** The per-request configuration axios hands back with an error: its
      `_retry` flag and its own `Authorization` header. */
  class RequestConfig {
    var retried: bool
    var authorization: Option<string>

    constructor (header: Option<string>)
      ensures !retried && authorization == header
    {
      retried := false;
      authorization := header;
    }
  }

  /** One `BaseAPIService`: its base URL, timeout and default header. */
  class ApiInstance {
    const baseUrl: string
    const timeout: nat
    var authHeader: Option<string>

    /** The constructor applies a truthy token. */
    constructor (baseUrl: string, token: Option<string>)
      ensures this.baseUrl == baseUrl && timeout == TIMEOUT_MS
      ensures authHeader == if Present(token) then Some(Bearer(token.value)) else None
    {
      this.baseUrl := baseUrl;
      timeout := TIMEOUT_MS;
      authHeader := None;
      if Present(token) {
        authHeader := Some(Bearer(token.value));
      }
    }

    method SetAuthToken(t: string)
      modifies this`authHeader
      ensures authHeader == Some(Bearer(t))
    {
      authHeader := Some(Bearer(t));
    }

    method ClearAuthToken()
      modifies this`authHeader
      ensures authHeader == None
    {
      authHeader := None;
    }

    /** Clears the stored tokens and this instance's header, and returns the
        page the browser is sent to, if any. */
    method HandleUnauthorized(store: TokenStore, pathname: string) returns (navigateTo: Option<string>)
      requires store.Valid()
      modifies this`authHeader, store, store.storage
      ensures store.State() == Cleared(old(store.State())) && store.Valid()
      ensures authHeader == None
      ensures navigateTo == if RedirectsToLogin(pathname) then Some(LOGIN_PATH) else None
    {
      store.ClearStoredTokens();
      ClearAuthToken();
      navigateTo := if RedirectsToLogin(pathname) then Some(LOGIN_PATH) else None;
    }

    /** The interceptor's error handler up to `await refreshAccessToken()`:
        on a first 401 the request is marked retried and the store is asked
        for a refresh; otherwise nothing changes and the error is to be
        thrown. */
    method OnResponseError(req: RequestConfig, e: HttpError, store: TokenStore) returns (d: Decision, h: Option<RefreshHandle>)
      requires store.Valid()
      modifies req`retried, store`inFlight, store`requests
      ensures d == OnError(old(req.retried), e) && store.Valid()
      ensures d == AskRefresh ==> req.retried && h.Some? && (store.State(), h.value) == CallRefresh(old(store.State()))
      ensures d.Fail? ==> req.retried == old(req.retried) && h == None && store.State() == old(store.State())
    {
      d := OnError(req.retried, e);
      if d == AskRefresh {
        req.retried := true;
        var handle := store.RefreshAccessToken();
        h := Some(handle);
      } else {
        h := None;
      }
    }

    /** The rest of the handler, once the refresh has settled with `o`. */
    method OnRefreshSettled(req: RequestConfig, e: HttpError, o: RefreshOutcome, store: TokenStore, pathname: string)
      returns (r: Resumption, navigateTo: Option<string>)
      requires store.Valid()
      modifies this`authHeader, req`authorization, store, store.storage
      ensures r == OnRefresh(o, e) && store.Valid()
      ensures r.Resend? ==>
        authHeader == Some(Bearer(r.token)) && req.authorization == Some(Bearer(r.token)) &&
        store.State() == old(store.State()) && navigateTo == None
      ensures r.Unauthorized? ==>
        authHeader == None && req.authorization == old(req.authorization) &&
        store.State() == Cleared(old(store.State())) &&
        navigateTo == (if RedirectsToLogin(pathname) then Some(LOGIN_PATH) else None)
      ensures r.Propagate? ==>
        authHeader == old(authHeader) && req.authorization == old(req.authorization) &&
        store.State() == old(store.State()) && navigateTo == None
    {
      r := OnRefresh(o, e);
      navigateTo := None;
      match r {
        case Resend(t) =>
          SetAuthToken(t);
          req.authorization := Some(Bearer(t));
        case Unauthorized(_) =>
          navigateTo := HandleUnauthorized(store, pathname);
        case Propagate(_) =>
      }
    }
  }
}
