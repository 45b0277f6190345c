/**
 * The browser-side token store of lib/auth.ts. `localStorage` is the `storage` map of a
 * `TokenStore`; `Date.now()` is the `now` argument (milliseconds); the login request's `fetch`
 * is the `LoginFetch` argument.
 */
module Auth {
  import opened Basics
  import opened Text

  const TokenKey: string := "auth_token"
  const ExpiryKey: string := "auth_token_expiry"

  /** `localStorage.getItem(key)`. */
  function Get(storage: map<string, string>, key: string): Option<string> {
    if key in storage then Some(storage[key]) else None
  }

  /** The store after `setToken({access_token, expires_at})`: the expiry is written only when truthy (present and not 0). */
  function AfterSetToken(storage: map<string, string>, accessToken: string, expiresAt: Option<int>)
    : map<string, string>
  {
    var withToken := storage[TokenKey := accessToken];
    if expiresAt.Some? && expiresAt.value != 0 then withToken[ExpiryKey := IntToString(expiresAt.value)]
    else withToken
  }

  /** The store after `clearToken()`: both keys removed, every other key untouched. */
  function Cleared(storage: map<string, string>): (r: map<string, string>)
    ensures TokenKey !in r && ExpiryKey !in r
    ensures forall k :: k in storage && k != TokenKey && k != ExpiryKey ==> k in r && r[k] == storage[k]
    ensures forall k :: k in r ==> k in storage
  {
    storage - {TokenKey, ExpiryKey}
  }

  /** The stored token has expired: an expiry is stored, it parses as a decimal integer, and `now` is past it. */
  predicate Expired(storage: map<string, string>, now: int) {
    var expiry := Get(storage, ExpiryKey);
    expiry.Some? && expiry.value != ""
    && var t := ParseIntDecimal(expiry.value); t.Some? && now > t.value
  }

  /** What `getToken()` returns: the stored token when it is non-empty and has not expired. */
  function ValidToken(storage: map<string, string>, now: int): Option<string> {
    var token := Get(storage, TokenKey);
    if token.None? || token.value == "" then None
    else if Expired(storage, now) then None
    else token
  }

  /** The store after `getToken()`: an expired token is cleared as a side effect. */
  function AfterGetToken(storage: map<string, string>, now: int): map<string, string> {
    var token := Get(storage, TokenKey);
    if token.Some? && token.value != "" && Expired(storage, now) then Cleared(storage) else storage
  }

  /** The headers `getAuthHeader()` returns for the token `getToken()` produced. */
  function AuthHeader(token: Option<string>): map<string, string> {
    if token.Some? && token.value != "" then map["Authorization" := "Bearer " + token.value] else map[]
  }

  datatype LoginResponse = LoginResponse(accessToken: string, tokenType: Option<string>, expiresIn: Option<int>)

  /** `AuthError(message, status?)`. */
  datatype AuthError = AuthError(message: string, status: Option<int>)

  /** The login `fetch`: a response whose JSON body may fail to parse (`None`), or a network failure. */
  datatype LoginFetch =
    | Answered(status: int, statusText: string, data: Option<LoginResponse>)
    | NetworkFailure

  /** The login endpoint for the production and development builds. */
  function LoginUrl(production: bool): string {
    (if production then "https://perspectiveshealth.ddns.net" else "http://localhost:5001") + "/login"
  }

  /** `data.expires_in || 24 * 60 * 60`, in seconds. */
  function ExpiresIn(data: LoginResponse): (s: int)
    ensures s != 0
    ensures data.expiresIn.Some? && data.expiresIn.value != 0 ==> s == data.expiresIn.value
    ensures data.expiresIn.None? || data.expiresIn == Some(0) ==> s == 24 * 60 * 60
  {
    if data.expiresIn.Some? && data.expiresIn.value != 0 then data.expiresIn.value else 86400
  }

  /** `Date.now() + expiresIn * 1000`. */
  function ExpiresAt(data: LoginResponse, now: int): int {
    now + ExpiresIn(data) * 1000
  }

  /** How `login` settles for a given response. */
  function LoginOutcome(fetch: LoginFetch): Result<LoginResponse, AuthError> {
    match fetch
    case NetworkFailure => Err(AuthError("Network error during login", None))
    case Answered(status, statusText, data) =>
      if !(200 <= status <= 299) then
        if status == 401 then Err(AuthError("Invalid email or password", Some(401)))
        else Err(AuthError("Login failed: " + IntToString(status) + " " + statusText, Some(status)))
      else if data.None? then Err(AuthError("Network error during login", None))
      else Ok(data.value)
  }

  class TokenStore {
    /** The `localStorage` entries. */
    var storage: map<string, string>

    constructor()
      ensures storage == map[]
    {
      storage := map[];
    }

    /** `setToken(tokens)`. */
    method SetToken(accessToken: string, expiresAt: Option<int>)
      modifies this
      ensures storage == AfterSetToken(old(storage), accessToken, expiresAt)
    {
      storage := storage[TokenKey := accessToken];
      if expiresAt.Some? && expiresAt.value != 0 {
        storage := storage[ExpiryKey := IntToString(expiresAt.value)];
      }
    }

    /** `clearToken()`. */
    method ClearToken()
      modifies this
      ensures storage == Cleared(old(storage))
    {
      storage := storage - {TokenKey};
      storage := storage - {ExpiryKey};
    }

    /** `getToken()` at time `now`. */
    method GetToken(now: int) returns (token: Option<string>)
      modifies this
      ensures token == ValidToken(old(storage), now)
      ensures storage == AfterGetToken(old(storage), now)
    {
      token := if TokenKey in storage then Some(storage[TokenKey]) else None;
      var expiry := if ExpiryKey in storage then Some(storage[ExpiryKey]) else None;
      if token.None? || token.value == "" {
        return None;
      }
      if expiry.Some? && expiry.value != "" {
        var expiryTime := ParseIntDecimal(expiry.value);
        if expiryTime.Some? && now > expiryTime.value {
          ClearToken();
          return None;
        }
      }
    }

    /** `isAuthenticated()`: whether `getToken()` returns a token; it may clear an expired one. */
    method IsAuthenticated(now: int) returns (b: bool)
      modifies this
      ensures b <==> ValidToken(old(storage), now).Some?
      ensures storage == AfterGetToken(old(storage), now)
    {
      var token := GetToken(now);
      b := token.Some?;
    }

    /** `logout()`. */
    method Logout()
      modifies this
      ensures storage == Cleared(old(storage))
    {
      ClearToken();
    }

    /** `getAuthHeader()`. */
    method GetAuthHeader(now: int) returns (header: map<string, string>)
      modifies this
      ensures header == AuthHeader(ValidToken(old(storage), now))
      ensures storage == AfterGetToken(old(storage), now)
    {
      var token := GetToken(now);
      if token.Some? && token.value != "" {
        header := map["Authorization" := "Bearer " + token.value];
      } else {
        header := map[];
      }
    }

    /** `login(email, password)`: on success the token is stored with its computed expiry. */
    method Login(production: bool, email: string, password: string, now: int, fetch: LoginFetch)
      returns (url: string, result: Result<LoginResponse, AuthError>)
      modifies this
      ensures url == LoginUrl(production)
      ensures result == LoginOutcome(fetch)
      ensures result.Ok? ==>
        storage == AfterSetToken(old(storage), result.value.accessToken, Some(ExpiresAt(result.value, now)))
      ensures result.Err? ==> storage == old(storage)
    {
      url := LoginUrl(production);
      if fetch.NetworkFailure? {
        return url, Err(AuthError("Network error during login", None));
      }
      if !(200 <= fetch.status <= 299) {
        if fetch.status == 401 {
          return url, Err(AuthError("Invalid email or password", Some(401)));
        }
        return url, Err(AuthError("Login failed: " + IntToString(fetch.status) + " " + fetch.statusText, Some(fetch.status)));
      }
      if fetch.data.None? {
        return url, Err(AuthError("Network error during login", None));
      }
      var data := fetch.data.value;
      var expiresIn := if data.expiresIn.Some? && data.expiresIn.value != 0 then data.expiresIn.value else 86400;
      var expiresAt := now + expiresIn * 1000;
      SetToken(data.accessToken, Some(expiresAt));
      result := Ok(data);
    }
  }

  // ---------------------------------------------------------------------------------------
  // Properties of the store

  /** A token stored with a (non-zero) expiry is returned up to and including that instant, and not after. */
  lemma {:induction false} SetTokenThenGet(storage: map<string, string>, token: string, expiresAt: int, now: int)
    requires token != "" && expiresAt != 0
    ensures ValidToken(AfterSetToken(storage, token, Some(expiresAt)), now)
      == if now > expiresAt then None else Some(token)
  {
    ParseIntDecimalOfIntToString(expiresAt);
  }

  /** `setToken` without a truthy expiry leaves any earlier expiry in place. */
  lemma {:induction false} SetTokenKeepsExpiry(storage: map<string, string>, token: string, expiresAt: Option<int>)
    requires expiresAt.None? || expiresAt.value == 0
    ensures Get(AfterSetToken(storage, token, expiresAt), ExpiryKey) == Get(storage, ExpiryKey)
    ensures Get(AfterSetToken(storage, token, expiresAt), TokenKey) == Some(token)
  {
  }

  /** Without a non-empty token `getToken` returns null and changes nothing. */
  lemma {:induction false} NoTokenIsNull(storage: map<string, string>, now: int)
    requires Get(storage, TokenKey) == None || Get(storage, TokenKey) == Some("")
    ensures ValidToken(storage, now) == None
    ensures AfterGetToken(storage, now) == storage
  {
  }

  /** Past a parseable expiry the token is dropped and both keys are removed. */
  lemma {:induction false} ExpiredTokenCleared(storage: map<string, string>, now: int, expiry: int)
    requires Get(storage, TokenKey).Some? && Get(storage, TokenKey).value != ""
    requires Get(storage, ExpiryKey) == Some(IntToString(expiry))
    ensures now > expiry ==> ValidToken(storage, now) == None && AfterGetToken(storage, now) == Cleared(storage)
    ensures now <= expiry ==> ValidToken(storage, now) == Get(storage, TokenKey) && AfterGetToken(storage, now) == storage
  {
    ParseIntDecimalOfIntToString(expiry);
  }

  /** With a token and no expiry, the token is returned at every time. */
  lemma {:induction false} NoExpiryNeverExpires(storage: map<string, string>, now: int)
    requires Get(storage, TokenKey).Some? && Get(storage, TokenKey).value != ""
    requires Get(storage, ExpiryKey).None?
    ensures ValidToken(storage, now) == Get(storage, TokenKey)
  {
  }

  /** An expiry that is not a decimal number never expires the token (`now > NaN` is false). */
  lemma {:induction false} UnparseableExpiryNeverExpires(storage: map<string, string>, now: int)
    requires Get(storage, TokenKey).Some? && Get(storage, TokenKey).value != ""
    requires Get(storage, ExpiryKey).Some? && ParseIntDecimal(Get(storage, ExpiryKey).value).None?
    ensures ValidToken(storage, now) == Get(storage, TokenKey)
    ensures AfterGetToken(storage, now) == storage
  {
  }

  /** Reading the token twice at the same time gives the same answer and clears at most once. */
  lemma {:induction false} GetTokenIdempotent(storage: map<string, string>, now: int)
    ensures ValidToken(AfterGetToken(storage, now), now) == ValidToken(storage, now)
    ensures AfterGetToken(AfterGetToken(storage, now), now) == AfterGetToken(storage, now)
  {
  }

  /** After `clearToken` (or `logout`) nobody is authenticated. */
  lemma {:induction false} ClearedHasNoToken(storage: map<string, string>, now: int)
    ensures ValidToken(Cleared(storage), now) == None
    ensures AuthHeader(ValidToken(Cleared(storage), now)) == map[]
  {
  }

  /** A returned token is never empty, so the header is present exactly when a token is. */
  lemma {:induction false} AuthHeaderPresent(storage: map<string, string>, now: int)
    ensures ValidToken(storage, now).Some? ==> ValidToken(storage, now).value != ""
    ensures "Authorization" in AuthHeader(ValidToken(storage, now)) <==> ValidToken(storage, now).Some?
    ensures ValidToken(storage, now).Some? ==>
      AuthHeader(ValidToken(storage, now))["Authorization"] == "Bearer " + ValidToken(storage, now).value
  {
  }

  /**
   * After a successful login at `now` with a positive `expires_in` (or none), the new token is valid
   * until `now + expiresIn * 1000` and expired right after.
   */
  lemma {:induction false} LoginThenValid(data: LoginResponse, now: int, later: int, storage: map<string, string>)
    requires data.accessToken != ""
    requires now >= 0 && (data.expiresIn.None? || data.expiresIn.value >= 0)
    ensures ExpiresAt(data, now) >= now + 1000
    ensures ValidToken(AfterSetToken(storage, data.accessToken, Some(ExpiresAt(data, now))), later)
      == if later > ExpiresAt(data, now) then None else Some(data.accessToken)
  {
    SetTokenThenGet(storage, data.accessToken, ExpiresAt(data, now), later);
  }

  /** A login without `expires_in` lasts 24 hours. */
  lemma {:induction false} DefaultLoginLifetime(data: LoginResponse, now: int)
    requires data.expiresIn.None? || data.expiresIn == Some(0)
    ensures ExpiresAt(data, now) == now + 86400000
  {
  }

  /** Login errors: 401 is reported as bad credentials, any other failed status carries that status. */
  lemma {:induction false} LoginErrors(fetch: LoginFetch)
    ensures LoginOutcome(fetch).Ok? <==>
      fetch.Answered? && 200 <= fetch.status <= 299 && fetch.data.Some?
    ensures fetch.Answered? && fetch.status == 401 ==>
      LoginOutcome(fetch) == Err(AuthError("Invalid email or password", Some(401)))
    ensures fetch.Answered? && !(200 <= fetch.status <= 299) ==>
      LoginOutcome(fetch).Err? && LoginOutcome(fetch).error.status == Some(fetch.status)
    ensures LoginOutcome(fetch).Err? && LoginOutcome(fetch).error.status.None? ==>
      LoginOutcome(fetch).error.message == "Network error during login"
  {
  }
}
