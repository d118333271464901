/**
 * The auth endpoints of `src/api/auth.ts` and their effect on the token
 * store. Every call goes through the request pipeline (`ApiClient.Send`),
 * so a 401 on, say, the login POST may itself refresh or clear the tokens
 * before the endpoint's own code runs.
 */
module AuthApi {
  import opened Common
  import opened Token
  import opened ApiClient

  const LoginUrl := "/auth/login"
  const GoogleLoginUrl := "/auth/google"
  const LogoutUrl := "/auth/logout"
  const CurrentUserUrl := "/auth/me"
  const RegisterUrl := "/auth/register"

  datatype User = User(id: string, email: string, name: string, profileImage: Option<string>)

  /** The body of a successful login. */
  datatype LoginResponse = LoginResponse(accessToken: string, refreshToken: string, user: User)

  /** The store a successful login leaves behind. */
  function SessionOf(r: LoginResponse): Tokens {
    Tokens(Some(r.accessToken), Some(r.refreshToken))
  }

  /** POST to a login endpoint, then store both tokens of the response; a rejection propagates before anything is stored. */
  method PostLogin(store: TokenStorage, url: string, server: Request -> Reply<LoginResponse>, refresh: RefreshOutcome)
    returns (result: Result<LoginResponse, Rejection>, redirect: Option<string>)
    modifies store
    ensures var x := Dispatch(old(store.State()), NewRequest(url), server, refresh);
      result == x.result && redirect == x.redirect &&
      store.State() == (if result.Ok? then SessionOf(result.value) else x.tokens)
  {
    var config := new RequestConfig(url);
    result, redirect := Send(store, config, server, refresh);
    if result.Ok? {
      store.SetToken(result.value.accessToken);
      store.SetRefreshToken(result.value.refreshToken);
    }
  }

  method Login(store: TokenStorage, server: Request -> Reply<LoginResponse>, refresh: RefreshOutcome)
    returns (result: Result<LoginResponse, Rejection>, redirect: Option<string>)
    modifies store
    ensures var x := Dispatch(old(store.State()), NewRequest(LoginUrl), server, refresh);
      result == x.result && redirect == x.redirect &&
      store.State() == (if result.Ok? then SessionOf(result.value) else x.tokens)
  {
    result, redirect := PostLogin(store, LoginUrl, server, refresh);
  }

  method GoogleLogin(store: TokenStorage, server: Request -> Reply<LoginResponse>, refresh: RefreshOutcome)
    returns (result: Result<LoginResponse, Rejection>, redirect: Option<string>)
    modifies store
    ensures var x := Dispatch(old(store.State()), NewRequest(GoogleLoginUrl), server, refresh);
      result == x.result && redirect == x.redirect &&
      store.State() == (if result.Ok? then SessionOf(result.value) else x.tokens)
  {
    result, redirect := PostLogin(store, GoogleLoginUrl, server, refresh);
  }

  /**
   * POST /auth/logout inside `try ... finally`: the store is cleared whatever
   * the call does, and, there being no `catch`, a failure of the call is
   * still the result.
   */
  method Logout(store: TokenStorage, server: Request -> Reply<()>, refresh: RefreshOutcome)
    returns (result: Result<(), Rejection>, redirect: Option<string>)
    modifies store
    ensures store.State() == Cleared
    ensures var x := Dispatch(old(store.State()), NewRequest(LogoutUrl), server, refresh);
      result == x.result && redirect == x.redirect
  {
    var config := new RequestConfig(LogoutUrl);
    result, redirect := Send(store, config, server, refresh);
    store.ClearTokens();
  }

  /** GET /auth/me: the endpoint itself writes nothing; the store is what the pipeline left. */
  method GetCurrentUser(store: TokenStorage, server: Request -> Reply<User>, refresh: RefreshOutcome)
    returns (result: Result<User, Rejection>, redirect: Option<string>)
    modifies store
    ensures var x := Dispatch(old(store.State()), NewRequest(CurrentUserUrl), server, refresh);
      result == x.result && redirect == x.redirect && store.State() == x.tokens
  {
    var config := new RequestConfig(CurrentUserUrl);
    result, redirect := Send(store, config, server, refresh);
  }

  /** POST /auth/register: returns the body and, unlike login, stores no token. */
  method Register<D>(store: TokenStorage, server: Request -> Reply<D>, refresh: RefreshOutcome)
    returns (result: Result<D, Rejection>, redirect: Option<string>)
    modifies store
    ensures var x := Dispatch(old(store.State()), NewRequest(RegisterUrl), server, refresh);
      result == x.result && redirect == x.redirect && store.State() == x.tokens
  {
    var config := new RequestConfig(RegisterUrl);
    result, redirect := Send(store, config, server, refresh);
  }

  /**
   * A login rejected by the backend writes neither token: the store is
   * exactly what the pipeline left, and when the backend answers with
   * something other than 401 that is the store as it was.
   */
  lemma FailedLoginStoresNothing(s: Tokens, url: string, server: Request -> Reply<LoginResponse>, refresh: RefreshOutcome)
    requires server(AttachBearer(s.access, NewRequest(url))).Failure?
    requires server(AttachBearer(s.access, NewRequest(url))).status != Some(Unauthorized)
    ensures var x := Dispatch(s, NewRequest(url), server, refresh);
      x.result.Err? && x.tokens == s
  {
    NoRefreshWithoutUnauthorized(s, NewRequest(url), server, refresh);
  }
}
