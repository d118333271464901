/**
 * The token session store of `src/utils/token.ts`: two entries of the
 * browser's local storage, the access token under "auth_token" and the
 * refresh token under "refresh_token". The two keys are distinct, so the
 * store is two independent fields.
 */
module Token {
  import opened Common

  /** The value of the store: what `getToken` and `getRefreshToken` return. */
  datatype Tokens = Tokens(access: Option<string>, refresh: Option<string>)

  /** The store after `clearTokens`: both keys removed. */
  const Cleared := Tokens(None, None)

  class TokenStorage {
    var access: Option<string>   // local storage entry "auth_token"
    var refresh: Option<string>  // local storage entry "refresh_token"

    function State(): Tokens
      reads this
    {
      Tokens(access, refresh)
    }

    /** The store as the page finds it: whatever an earlier session persisted. */
    constructor (persisted: Tokens)
      ensures State() == persisted
    {
      access := persisted.access;
      refresh := persisted.refresh;
    }

    method SetToken(token: string)
      modifies this
      ensures access == Some(token)
      ensures refresh == old(refresh)
    {
      access := Some(token);
    }

    method GetToken() returns (token: Option<string>)
      ensures token == access
    {
      token := access;
    }

    method SetRefreshToken(token: string)
      modifies this
      ensures refresh == Some(token)
      ensures access == old(access)
    {
      refresh := Some(token);
    }

    method GetRefreshToken() returns (token: Option<string>)
      ensures token == refresh
    {
      token := refresh;
    }

    /** Removes both keys; the resulting state does not depend on the old one, so clearing twice is clearing once. */
    method ClearTokens()
      modifies this
      ensures State() == Cleared
    {
      access := None;
      refresh := None;
    }

    /** `!!getItem("auth_token")`: an empty stored string counts as no token. */
    method HasToken() returns (b: bool)
      ensures b <==> access.Some? && access.value != ""
    {
      var token := GetToken();
      b := Truthy(token);
    }
  }
}
