/**
 * The authenticated request pipeline of `src/api/client.ts`: the request
 * interceptor that attaches the access token as a bearer credential
 * (section 2.1 of RFC 6750: `Authorization: Bearer <token>`), and the
 * response error interceptor that answers a 401 with one refresh of the
 * access token and one re-send of the original request.
 *
 * The backend is an oracle: `server` answers every sent request, and the
 * refresh endpoint's answer is the value `refresh`. `OnError` is one run of
 * the error interceptor, `Dispatch` one logical request from first send to
 * final settlement; the methods at the end do the same on a mutable request
 * object and the token store, and are proved equal to these functions.
 */
module ApiClient {
  import opened Common
  import opened Token
  import App

  const Authorization := "Authorization"
  const Unauthorized := 401

  /** The credential form the interceptors write into the Authorization header. */
  function Bearer(token: string): string {
    "Bearer " + token
  }

  /** The request configuration axios hands to the interceptors; `retry` is `_retry`. */
  datatype Request = Request(url: string, headers: map<string, string>, retry: bool)

  /** A fresh request carrying the client's default header only. */
  function NewRequest(url: string): Request {
    Request(url, map["Content-Type" := "application/json"], false)
  }

  /** The backend's answer: data, or an error with its HTTP status (None when no response arrived). */
  datatype Reply<D> = Success(data: D) | Failure(status: Option<int>)

  /** The answer of `POST /auth/refresh`. */
  datatype RefreshOutcome = Refreshed(accessToken: string) | RefreshFailed(status: Option<int>)

  /** What a rejected request rejects with: its own error, or the refresh call's error. */
  datatype Rejection = Original(status: Option<int>) | RefreshError(status: Option<int>)

  /** What the error interceptor does with the failed request. */
  datatype Action = Retry | Reject(error: Rejection)

  /**
   * One run of the error interceptor: the token store and the request object
   * afterwards, what happens to the request, whether `/auth/refresh` was
   * called, and where the page was sent.
   */
  datatype ErrorStep = ErrorStep(tokens: Tokens, req: Request, action: Action, refreshCalled: bool, redirect: Option<string>)

  /** The whole life of one logical request. `sent` lists every request the backend received, `last` is the request object at the end. */
  datatype Exchange<D> = Exchange(tokens: Tokens, sent: seq<Request>, last: Request, refreshCalls: nat, result: Result<D, Rejection>, redirect: Option<string>)

  /** The request interceptor: a truthy access token becomes the Authorization header; nothing else changes. */
  function AttachBearer(access: Option<string>, req: Request): (r: Request)
    ensures r.url == req.url && r.retry == req.retry
    ensures Truthy(access) ==> Authorization in r.headers && r.headers[Authorization] == Bearer(access.value)
    ensures forall k :: k != Authorization ==> (k in r.headers <==> k in req.headers)
    ensures forall k :: k != Authorization && k in req.headers ==> r.headers[k] == req.headers[k]
    ensures !Truthy(access) ==> r == req
  {
    if Truthy(access) then req.(headers := req.headers[Authorization := Bearer(access.value)]) else req
  }

  /**
   * The response error interceptor. Only a 401 on a request not yet marked
   * `_retry` is handled: the mark is set first; then, if a truthy refresh
   * token is stored, the refresh endpoint is called. Every other error, and
   * a 401 without a refresh token, is rejected as it came.
   */
  function OnError(s: Tokens, req: Request, status: Option<int>, refresh: RefreshOutcome): (t: ErrorStep)
    ensures status == Some(Unauthorized) && !req.retry ==> t.req.retry
    ensures t.refreshCalled <==> status == Some(Unauthorized) && !req.retry && Truthy(s.refresh)
    ensures t.action == Retry <==> t.refreshCalled && refresh.Refreshed?
    ensures t.action == Retry ==> t.req.retry && !req.retry
    ensures !t.refreshCalled ==> t.tokens == s && t.redirect == None && t.action == Reject(Original(status))
    ensures t.tokens.refresh == s.refresh || t.tokens == Cleared
  {
    if status == Some(Unauthorized) && !req.retry then
      var marked := req.(retry := true);
      if Truthy(s.refresh) then
        match refresh
        case Refreshed(token) =>
          ErrorStep(s.(access := Some(token)),
                    marked.(headers := marked.headers[Authorization := Bearer(token)]),
                    Retry, true, None)
        case RefreshFailed(code) =>
          ErrorStep(Cleared, marked, Reject(RefreshError(code)), true, Some(App.LoginPath))
      else
        ErrorStep(s, marked, Reject(Original(status)), false, None)
    else
      ErrorStep(s, req, Reject(Original(status)), false, None)
  }

  /**
   * One logical request: send through the request interceptor; a success is
   * passed through unchanged; a failure goes through the error interceptor,
   * which either settles it or re-sends the marked request once. The re-send
   * carries `_retry`, so it can never refresh again: this is what bounds the
   * recursion.
   */
  function Dispatch<D>(s: Tokens, req: Request, server: Request -> Reply<D>, refresh: RefreshOutcome): (x: Exchange<D>)
    ensures 1 <= |x.sent| <= 2 && x.refreshCalls <= 1
    ensures x.sent[0] == AttachBearer(s.access, req)
    ensures |x.sent| == 2 ==> x.refreshCalls == 1 && x.sent[1].retry && x.redirect == None
    ensures req.retry ==> |x.sent| == 1 && x.refreshCalls == 0 && x.tokens == s && x.redirect == None
    ensures x.tokens.refresh == s.refresh || x.tokens == Cleared
    decreases if req.retry then 0 else 1
  {
    var sent := AttachBearer(s.access, req);
    match server(sent)
    case Success(data) => Exchange(s, [sent], sent, 0, Ok(data), None)
    case Failure(status) =>
      var step := OnError(s, sent, status, refresh);
      match step.action
      case Reject(e) =>
        Exchange(step.tokens, [sent], step.req, if step.refreshCalled then 1 else 0, Err(e), step.redirect)
      case Retry =>
        var again := Dispatch(step.tokens, step.req, server, refresh);
        Exchange(again.tokens, [sent] + again.sent, again.last, 1 + again.refreshCalls, again.result, again.redirect)
  }

  /** The outcome a single answer from the backend gives a request the interceptor does not recover. */
  function Settle<D>(reply: Reply<D>): Result<D, Rejection> {
    match reply
    case Success(data) => Ok(data)
    case Failure(status) => Err(Original(status))
  }

  // ---------------------------------------------------------------------
  // Properties of the pipeline
  // ---------------------------------------------------------------------

  /** A successful response is returned unchanged, and nothing is refreshed or stored. */
  lemma SuccessPassesThrough<D>(s: Tokens, req: Request, server: Request -> Reply<D>, refresh: RefreshOutcome)
    requires server(AttachBearer(s.access, req)).Success?
    ensures var x := Dispatch(s, req, server, refresh);
      x.result == Ok(server(AttachBearer(s.access, req)).data) &&
      x.tokens == s && x.refreshCalls == 0 && |x.sent| == 1 && x.redirect == None
  {
  }

  /** A request the backend does not answer with 401 never triggers a refresh, a re-send or a token change. */
  lemma NoRefreshWithoutUnauthorized<D>(s: Tokens, req: Request, server: Request -> Reply<D>, refresh: RefreshOutcome)
    requires server(AttachBearer(s.access, req)) != Failure(Some(Unauthorized))
    ensures var x := Dispatch(s, req, server, refresh);
      x.refreshCalls == 0 && |x.sent| == 1 && x.tokens == s && x.redirect == None &&
      x.result == Settle(server(AttachBearer(s.access, req)))
  {
  }

  /**
   * A 401 with a refresh token present and a successful refresh: the new
   * access token is stored, the refresh token kept, and the original request
   * is re-sent exactly once with the new bearer header; whatever that re-send
   * gets, even another 401, is the final result.
   */
  lemma RefreshThenRetryOnce<D>(s: Tokens, req: Request, server: Request -> Reply<D>, token: string)
    requires !req.retry && Truthy(s.refresh)
    requires server(AttachBearer(s.access, req)) == Failure(Some(Unauthorized))
    ensures var x := Dispatch(s, req, server, Refreshed(token));
      x.refreshCalls == 1 && |x.sent| == 2 &&
      x.sent[1].retry && x.sent[1].url == req.url &&
      Authorization in x.sent[1].headers && x.sent[1].headers[Authorization] == Bearer(token) &&
      x.tokens == Tokens(Some(token), s.refresh) &&
      x.result == Settle(server(x.sent[1])) && x.redirect == None
  {
  }

  /** A 401 whose refresh call fails: both tokens are cleared, the page goes to /login, and the refresh error is the rejection. */
  lemma RefreshFailureLogsOut<D>(s: Tokens, req: Request, server: Request -> Reply<D>, code: Option<int>)
    requires !req.retry && Truthy(s.refresh)
    requires server(AttachBearer(s.access, req)) == Failure(Some(Unauthorized))
    ensures var x := Dispatch(s, req, server, RefreshFailed(code));
      x.tokens == Cleared && x.redirect == Some(App.LoginPath) &&
      x.result == Err(RefreshError(code)) && x.refreshCalls == 1 && |x.sent| == 1
  {
  }

  /** A 401 with no (or an empty) refresh token clears nothing and redirects nowhere: the original error is the rejection. */
  lemma MissingRefreshTokenFallsThrough<D>(s: Tokens, req: Request, server: Request -> Reply<D>, refresh: RefreshOutcome)
    requires !Truthy(s.refresh)
    requires server(AttachBearer(s.access, req)) == Failure(Some(Unauthorized))
    ensures var x := Dispatch(s, req, server, refresh);
      x.tokens == s && x.redirect == None && x.refreshCalls == 0 &&
      x.result == Err(Original(Some(Unauthorized))) && x.last.retry
  {
  }

  // ---------------------------------------------------------------------
  // The interceptors on a mutable request object and the token store
  // ---------------------------------------------------------------------

  class RequestConfig {
    var url: string
    var headers: map<string, string>
    var retry: bool

    function Value(): Request
      reads this
    {
      Request(url, headers, retry)
    }

    constructor (url: string)
      ensures Value() == NewRequest(url)
    {
      this.url := url;
      headers := map["Content-Type" := "application/json"];
      retry := false;
    }
  }

  method InterceptRequest(store: TokenStorage, config: RequestConfig)
    modifies config
    ensures config.Value() == AttachBearer(store.access, old(config.Value()))
  {
    var token := store.GetToken();
    if Truthy(token) {
      config.headers := config.headers[Authorization := Bearer(token.value)];
    }
  }

  method InterceptError(store: TokenStorage, config: RequestConfig, status: Option<int>, refresh: RefreshOutcome)
    returns (action: Action, redirect: Option<string>)
    modifies store, config
    ensures var t := OnError(old(store.State()), old(config.Value()), status, refresh);
      store.State() == t.tokens && config.Value() == t.req && action == t.action && redirect == t.redirect
  {
    action, redirect := Reject(Original(status)), None;
    if status == Some(Unauthorized) && !config.retry {
      config.retry := true;
      var refreshToken := store.GetRefreshToken();
      if Truthy(refreshToken) {
        match refresh {
          case Refreshed(token) =>
            store.SetToken(token);
            config.headers := config.headers[Authorization := Bearer(token)];
            action := Retry;
          case RefreshFailed(code) =>
            store.ClearTokens();
            action, redirect := Reject(RefreshError(code)), Some(App.LoginPath);
        }
      }
    }
  }

  /** `apiClient(config)`: both interceptors around the backend, re-entered once for the re-send. */
  method Send<D>(store: TokenStorage, config: RequestConfig, server: Request -> Reply<D>, refresh: RefreshOutcome)
    returns (result: Result<D, Rejection>, redirect: Option<string>)
    modifies store, config
    ensures var x := Dispatch(old(store.State()), old(config.Value()), server, refresh);
      store.State() == x.tokens && config.Value() == x.last && result == x.result && redirect == x.redirect
    decreases if config.retry then 0 else 1
  {
    InterceptRequest(store, config);
    match server(config.Value()) {
      case Success(data) =>
        result, redirect := Ok(data), None;
      case Failure(status) =>
        var action;
        action, redirect := InterceptError(store, config, status, refresh);
        match action {
          case Reject(e) =>
            result := Err(e);
          case Retry =>
            result, redirect := Send(store, config, server, refresh);
        }
    }
  }
}
