/**
 * `CognitoAuthenticator` of `cognito.py`: the stored identity, its three ways of signing
 * in (password, authorization code, access token), logout, and the hosted-UI URLs.
 */
module Cognito {
  import opened Wrappers
  import opened Identity
  import opened AppState

  /** The user pool's hosted-UI domain prefix, its region, the app client id and its callback URL. */
  datatype PoolConfig = PoolConfig(domain: string, region: string, clientId: string, redirectUri: string)

  /** `https://{domain}.auth.{region}.amazoncognito.com/` */
  function HostedBase(pool: PoolConfig): string {
    "https://" + pool.domain + ".auth." + pool.region + ".amazoncognito.com/"
  }

  /** The query string that the two hosted-UI links share. */
  function HostedQuery(pool: PoolConfig): string {
    "client_id=" + pool.clientId + "&response_type=code&scope=email+openid+profile&redirect_uri=" + pool.redirectUri
  }

  /** The "Forgot Password" link of the login form, assembled as `login` does. */
  function ForgotPasswordUrl(pool: PoolConfig): string {
    "https://" + pool.domain + ".auth." + pool.region + ".amazoncognito.com/forgotPassword?"
    + "client_id=" + pool.clientId + "&response_type=code&scope=email+openid+profile&"
    + "redirect_uri=" + pool.redirectUri
  }

  /** The "SignUp" link of the login form, assembled as `login` does. */
  function SignupUrl(pool: PoolConfig): string {
    "https://" + pool.domain + ".auth." + pool.region + ".amazoncognito.com/signup?client_id="
    + pool.clientId + "&response_type=code&scope=email+openid+profile&"
    + "redirect_uri=" + pool.redirectUri
  }

  /** The token endpoint `login_from_code` posts to. */
  function TokenUrl(pool: PoolConfig): string {
    "https://" + pool.domain + ".auth." + pool.region + ".amazoncognito.com/oauth2/token"
  }

  /** The "Forgot Password" link is the pool's base, the `forgotPassword` path and the shared query. */
  lemma ForgotPasswordUrlShape(pool: PoolConfig)
    ensures ForgotPasswordUrl(pool) == HostedBase(pool) + "forgotPassword?" + HostedQuery(pool)
  {
  }

  /** The "SignUp" link is the pool's base, the `signup` path and the same shared query. */
  lemma SignupUrlShape(pool: PoolConfig)
    ensures SignupUrl(pool) == HostedBase(pool) + "signup?" + HostedQuery(pool)
  {
  }

  /** The token endpoint lives under the same base as the two links. */
  lemma TokenUrlShape(pool: PoolConfig)
    ensures TokenUrl(pool) == HostedBase(pool) + "oauth2/token"
  {
  }

  /** `initiate_auth` with `AuthFlow='USER_PASSWORD_AUTH'`. */
  datatype InitiateAuthRequest = InitiateAuthRequest(clientId: string, authFlow: string, username: string, password: string)

  /** `response['AuthenticationResult']['AccessToken']`; `None` when the key is missing (a challenge). */
  datatype AuthResponse = AuthResponse(accessToken: Option<string>)

  /** The form posted to the token endpoint (`client_secret` is `None` and is left out). */
  datatype TokenRequest = TokenRequest(url: string, grantType: string, clientId: string, code: string, redirectUri: string)

  /** `response.json()['access_token']`; `None` when the body has no such key or is not JSON. */
  datatype TokenResponse = TokenResponse(accessToken: Option<string>)

  type InitiateAuth = InitiateAuthRequest -> Result<AuthResponse, ProviderError>
  type TokenEndpoint = TokenRequest -> Result<TokenResponse, ProviderError>
  /** `get_user(AccessToken=token)`. */
  type GetUser = string -> Result<GetUserResponse, ProviderError>

  /** The access token of a call result, `None` wherever the source's `try` block raises. */
  function TokenOf(r: Result<AuthResponse, ProviderError>): Option<string> {
    if r.Ok? then r.value.accessToken else None
  }

  function ExchangedToken(r: Result<TokenResponse, ProviderError>): Option<string> {
    if r.Ok? then r.value.accessToken else None
  }

  /** The identity `_get_user_info` installs for a token, `None` when nothing is installed. */
  function SignedInUser(token: Option<string>, getUser: GetUser, lookup: GroupLookup): (u: Option<UserInfo>)
    ensures u.Some? <==> token.Some? && getUser(token.value).Ok?
    ensures u.Some? ==> u.value.isLoggedIn && u.value.userName == getUser(token.value).value.username
  {
    match token
    case None => None
    case Some(t) =>
      match getUser(t)
      case Err(_) => None
      case Ok(response) => Some(FromCognitoResponse(response, lookup))
  }

  class CognitoAuthenticator {
    var user: UserInfo
    const session: SessionState
    const pool: PoolConfig

    /**
     * On `Some(u)` both `self.User` and `session_state['UserInfo']` become `u` and no other
     * key changes; on `None` nothing changes.
     */
    twostate predicate Installs(u: Option<UserInfo>)
      reads this, session
    {
      match u
      case Some(v) => user == v && session.Value() == old(session.Value()).(userInfo := Some(v))
      case None => user == old(user) && session.Value() == old(session.Value())
    }

    /**
     * `__init__`: reuse the stored `UserInfo`, or install a logged-out one in both
     * `self.User` and the session state.
     */
    constructor (session: SessionState, pool: PoolConfig)
      modifies session
      ensures this.session == session && this.pool == pool
      ensures old(session.userInfo).Some? ==> user == old(session.userInfo).value && session.Value() == old(session.Value())
      ensures old(session.userInfo).None? ==> user == LoggedOut && session.Value() == old(session.Value()).(userInfo := Some(LoggedOut))
    {
      this.session := session;
      this.pool := pool;
      if session.userInfo.None? {
        user := LoggedOut;
        session.userInfo := Some(LoggedOut);
      } else {
        user := session.userInfo.value;
      }
    }

    /** `_get_user_info`: on a successful `get_user`, build and store the identity; on failure change nothing. */
    method GetUserInfo(token: string, getUser: GetUser, lookup: GroupLookup)
      modifies this, session
      ensures Installs(SignedInUser(Some(token), getUser, lookup))
    {
      var response := getUser(token);
      if response.Ok? {
        user := FromCognitoResponse(response.value, lookup);
        session.userInfo := Some(user);
      }
    }

    /** `_authenticate`: exchange user name and password for an access token, then `_get_user_info`. */
    method Authenticate(username: string, password: string, initiate: InitiateAuth, getUser: GetUser, lookup: GroupLookup)
      modifies this, session
      ensures Installs(SignedInUser(TokenOf(initiate(InitiateAuthRequest(pool.clientId, "USER_PASSWORD_AUTH", username, password))), getUser, lookup))
    {
      var response := initiate(InitiateAuthRequest(pool.clientId, "USER_PASSWORD_AUTH", username, password));
      var token := TokenOf(response);
      if token.Some? {
        GetUserInfo(token.value, getUser, lookup);
      }
    }

    /** `login_from_code`: exchange an authorization code at the token endpoint, then `_get_user_info`. */
    method LoginFromCode(authCode: string, exchange: TokenEndpoint, getUser: GetUser, lookup: GroupLookup)
      modifies this, session
      ensures Installs(SignedInUser(ExchangedToken(exchange(TokenRequest(TokenUrl(pool), "authorization_code", pool.clientId, authCode, pool.redirectUri))), getUser, lookup))
    {
      var response := exchange(TokenRequest(TokenUrl(pool), "authorization_code", pool.clientId, authCode, pool.redirectUri));
      var token := ExchangedToken(response);
      if token.Some? {
        GetUserInfo(token.value, getUser, lookup);
      }
    }

    /** `logout`: the whole session state is cleared, not only the identity. */
    method Logout()
      modifies session
      ensures session.Value() == EmptyState
    {
      session.Clear();
    }
  }

  /**
   * Logout followed by the rerun it triggers: the new authenticator finds no stored
   * identity, so the visitor is logged out and nothing else is stored.
   */
  method LogoutThenRerun(auth: CognitoAuthenticator) returns (next: CognitoAuthenticator)
    modifies auth.session
    ensures next.session == auth.session && next.pool == auth.pool
    ensures !next.user.isLoggedIn
    ensures next.session.Value() == EmptyState.(userInfo := Some(LoggedOut))
  {
    auth.Logout();
    next := new CognitoAuthenticator(auth.session, auth.pool);
  }
}
