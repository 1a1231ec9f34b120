/** `src/stores/auth.ts`: the bearer token, kept in state and mirrored in the browser's local
    storage under `auth_token`. */
module Auth {
  import opened Remote

  const TokenKey := "auth_token"

  /** The body of `/login/access-token`; `access_token` may be missing. */
  datatype LoginResponse = LoginResponse(accessToken: Field<string>)

  /** `if (data.access_token)`: the token is used only when it is a non-empty string. */
  predicate IssuedToken(data: LoginResponse)
  {
    data.accessToken.Value? && data.accessToken.value != ""
  }

  class AuthStore {
    var token: Option<string>
    /** Local storage, as far as this store touches it. */
    var storage: map<string, string>

    /** The state token is what local storage holds under `auth_token`. */
    predicate Synced()
      reads this
    {
      token == (if TokenKey in storage then Some(storage[TokenKey]) else None)
    }

    /** The store starts from whatever local storage holds (`localStorage.getItem`). */
    constructor (stored: map<string, string>)
      ensures storage == stored
      ensures token == (if TokenKey in stored then Some(stored[TokenKey]) else None)
      ensures Synced()
    {
      storage := stored;
      token := if TokenKey in stored then Some(stored[TokenKey]) else None;
    }

    /** `isAuthenticated`: `!!token.value`, so an empty token does not count. */
    function IsAuthenticated(): (b: bool)
      reads this
      ensures b <==> token.Some? && |token.value| > 0
      ensures b <==> Present(token)
    {
      token.Some? && token.value != ""
    }

    /** `setToken`: both copies become the new token; other storage keys are kept. */
    method SetToken(newToken: string)
      modifies this
      ensures token == Some(newToken)
      ensures storage == old(storage)[TokenKey := newToken]
      ensures Synced()
      ensures IsAuthenticated() <==> newToken != ""
    {
      storage := storage[TokenKey := newToken];
      token := Some(newToken);
    }

    /** `clearToken`: the token is null and the storage key removed; other keys are kept. */
    method ClearToken()
      modifies this
      ensures token == None
      ensures storage == old(storage) - {TokenKey}
      ensures Synced() && !IsAuthenticated()
    {
      storage := storage - {TokenKey};
      token := None;
    }

    /** `logout`: the same as `clearToken`. */
    method Logout()
      modifies this
      ensures token == None
      ensures storage == old(storage) - {TokenKey}
      ensures Synced() && !IsAuthenticated()
    {
      ClearToken();
    }

    /** `login`: one form POST. Only an ok response carrying a non-empty `access_token`
        signs in; a response that is not ok, or carries no token, changes nothing; a fetch
        that throws clears the token. */
    method Login(email: string, password: string, response: Outcome<LoginResponse>)
      returns (sent: seq<Request>, success: bool)
      modifies this
      requires Synced()
      ensures Synced()
      ensures sent == [Request(Post, "/login/access-token")]
      ensures success <==> response.Ok? && IssuedToken(response.payload)
      ensures success ==> token == Some(response.payload.accessToken.value) && IsAuthenticated()
      ensures success ==> storage == old(storage)[TokenKey := response.payload.accessToken.value]
      ensures response.Ok? && !success ==> token == old(token) && storage == old(storage)
      ensures response.NotOk? ==> token == old(token) && storage == old(storage)
      ensures response.Raised? ==> token == None && storage == old(storage) - {TokenKey}
    {
      sent := [Request(Post, "/login/access-token")];
      match response {
        case NotOk =>
          success := false;
        case Raised(_) =>
          ClearToken();
          success := false;
        case Ok(data) =>
          if IssuedToken(data) {
            SetToken(data.accessToken.value);
            success := true;
          } else {
            success := false;
          }
      }
    }
  }
}
