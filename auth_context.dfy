/**
 * The auth context of `src/contexts/AuthContext.tsx`: the `user` and
 * `isLoading` state of the provider, the session restoration `checkAuth`
 * run at start-up, and the context's login, Google login and logout, each
 * built on the `AuthApi` endpoints.
 */
module AuthContext {
  import opened Common
  import opened Token
  import opened ApiClient
  import opened AuthApi

  /** The three states the route guards distinguish. */
  datatype Phase = Loading | Authenticated | Anonymous

  class AuthProvider {
    var user: Option<User>
    var isLoading: bool

    /** `isAuthenticated = !!user`. */
    function IsAuthenticated(): (authenticated: bool)
      reads this
      ensures authenticated <==> user != None
    {
      user.Some?
    }

    function CurrentPhase(): Phase
      reads this
    {
      if isLoading then Loading else if IsAuthenticated() then Authenticated else Anonymous
    }

    constructor ()
      ensures user == None && isLoading
      ensures CurrentPhase() == Loading
    {
      user := None;
      isLoading := true;
    }

    /**
     * `checkAuth`: with a stored access token, fetch the current user; a
     * failure clears both tokens and leaves `user` as it was. Loading ends
     * whatever happened.
     */
    method CheckAuth(store: TokenStorage, server: Request -> Reply<User>, refresh: RefreshOutcome)
      returns (redirect: Option<string>)
      modifies this, store
      ensures !isLoading && CurrentPhase() != Loading
      ensures !Truthy(old(store.access)) ==>
        user == old(user) && store.State() == old(store.State()) && redirect == None
      ensures Truthy(old(store.access)) ==>
        var x := Dispatch(old(store.State()), NewRequest(CurrentUserUrl), server, refresh);
        redirect == x.redirect &&
        (x.result.Ok? ==> user == Some(x.result.value) && store.State() == x.tokens) &&
        (x.result.Err? ==> user == old(user) && store.State() == Cleared)
    {
      redirect := None;
      var present := store.HasToken();
      if present {
        var result;
        result, redirect := GetCurrentUser(store, server, refresh);
        match result {
          case Ok(u) => user := Some(u);
          case Err(_) => store.ClearTokens();
        }
      }
      isLoading := false;
    }

    /** The context's login on one of the two login endpoints: `user` is set on success; a failure is rethrown with `user` unchanged. */
    method LoginAt(store: TokenStorage, url: string, server: Request -> Reply<LoginResponse>, refresh: RefreshOutcome)
      returns (result: Result<(), Rejection>, redirect: Option<string>)
      modifies this, store
      ensures isLoading == old(isLoading)
      ensures var x := Dispatch(old(store.State()), NewRequest(url), server, refresh);
        redirect == x.redirect &&
        (x.result.Ok? ==> result == Ok(()) && user == Some(x.result.value.user) && store.State() == SessionOf(x.result.value)) &&
        (x.result.Err? ==> result == Err(x.result.error) && user == old(user) && store.State() == x.tokens)
    {
      var response;
      response, redirect := PostLogin(store, url, server, refresh);
      match response {
        case Ok(r) =>
          user := Some(r.user);
          result := Ok(());
        case Err(e) =>
          result := Err(e);
      }
    }

    method Login(store: TokenStorage, server: Request -> Reply<LoginResponse>, refresh: RefreshOutcome)
      returns (result: Result<(), Rejection>, redirect: Option<string>)
      modifies this, store
      ensures isLoading == old(isLoading)
      ensures var x := Dispatch(old(store.State()), NewRequest(LoginUrl), server, refresh);
        redirect == x.redirect &&
        (x.result.Ok? ==> result == Ok(()) && user == Some(x.result.value.user) && store.State() == SessionOf(x.result.value)) &&
        (x.result.Err? ==> result == Err(x.result.error) && user == old(user) && store.State() == x.tokens)
    {
      result, redirect := LoginAt(store, LoginUrl, server, refresh);
    }

    method GoogleLogin(store: TokenStorage, server: Request -> Reply<LoginResponse>, refresh: RefreshOutcome)
      returns (result: Result<(), Rejection>, redirect: Option<string>)
      modifies this, store
      ensures isLoading == old(isLoading)
      ensures var x := Dispatch(old(store.State()), NewRequest(GoogleLoginUrl), server, refresh);
        redirect == x.redirect &&
        (x.result.Ok? ==> result == Ok(()) && user == Some(x.result.value.user) && store.State() == SessionOf(x.result.value)) &&
        (x.result.Err? ==> result == Err(x.result.error) && user == old(user) && store.State() == x.tokens)
    {
      result, redirect := LoginAt(store, GoogleLoginUrl, server, refresh);
    }

    /**
     * `logout`: `user` becomes null in a `finally`, so even when the API call
     * fails; with no `catch`, that failure is rethrown to the caller.
     */
    method Logout(store: TokenStorage, server: Request -> Reply<()>, refresh: RefreshOutcome)
      returns (result: Result<(), Rejection>, redirect: Option<string>)
      modifies this, store
      ensures user == None && store.State() == Cleared && isLoading == old(isLoading)
      ensures !isLoading ==> CurrentPhase() == Anonymous
      ensures var x := Dispatch(old(store.State()), NewRequest(LogoutUrl), server, refresh);
        result == x.result && redirect == x.redirect
    {
      result, redirect := AuthApi.Logout(store, server, refresh);
      user := None;
    }
  }
}
