/** The OAuth 2.0 authorization-code callback (section 4.1 of RFC 6749):
    the Provider's error response (4.1.2.1), the authorization code and the
    CSRF `state` (4.1.2, 10.12), the token request (4.1.3), the user-info
    lookup and, only when every step succeeds, the session write. */
module Callback {
  import opened Js
  import opened Types
  import opened Session
  import opened Http

  /** The callback's query parameters, its `oauth_state` cookie and its origin. */
  datatype CallbackRequest = CallbackRequest(
    code: Option<string>,
    state: Option<string>,
    error: Option<string>,
    errorDescription: Option<string>,
    stateCookie: Option<string>,
    origin: string)

  /** The token endpoint's JSON answer; any field may be missing. */
  datatype TokenData = TokenData(
    accessToken: Option<string>,     // access_token
    refreshToken: Option<string>,    // refresh_token
    expiresIn: Option<int>,          // expires_in, seconds
    restInstanceUrl: Option<string>) // rest_instance_url

  datatype UserInfoUser = UserInfoUser(id: int, email: string, name: Option<string>, culture: string)

  datatype UserInfoOrganization = UserInfoOrganization(
    id: int,
    enterpriseId: int,           // enterprise_id
    stackKey: Option<string>,    // stack_key
    region: Option<string>)

  /** The user-info endpoint's JSON answer; a missing sub-object makes the handler throw. */
  datatype UserInfo = UserInfo(user: Option<UserInfoUser>, organization: Option<UserInfoOrganization>)

  /** What the handler does before touching the session: the requests it
      sends, the session write it asks for, and its response. */
  datatype CallbackPlan = CallbackPlan(sent: seq<Request>, commit: Option<SessionInput>, response: Response)

  const ConfigurationError := "Server configuration error"
  const MissingCode := "Missing authorization code"
  const InvalidState := "Invalid state parameter"
  const TokenExchangeFailed := "Token exchange failed"
  const UserInfoFailed := "Failed to fetch user info"
  const AuthenticationFailed := "Authentication failed"

  /** The token request: an `authorization_code` grant with the client's credentials. */
  function TokenRequest(authBaseUri: string, code: string, clientId: string, clientSecret: string, redirectUri: string)
    : Request
  {
    Request("POST", authBaseUri + "/v2/token",
      [Header("Content-Type", "application/x-www-form-urlencoded")],
      [QueryParam("grant_type", "authorization_code"), QueryParam("code", code), QueryParam("client_id", clientId),
       QueryParam("client_secret", clientSecret), QueryParam("redirect_uri", redirectUri)])
  }

  /** The user-info lookup with the access token as bearer credential. */
  function UserInfoRequest(authBaseUri: string, accessToken: Option<string>): Request {
    Request("GET", authBaseUri + "/v2/userinfo", [Header("Authorization", "Bearer " + Interpolate(accessToken))], [])
  }

  /** `Date.now() + expires_in * 1000`; NaN when `expires_in` is missing. */
  function ExpiryFrom(nowMs: int, expiresIn: Option<int>): Number {
    if expiresIn.Some? then Finite(nowMs + expiresIn.value * 1000) else NaN
  }

  /** The argument the callback passes to `CreateSession`. */
  function SessionFrom(token: TokenData, user: UserInfoUser, org: UserInfoOrganization, nowMs: int): SessionInput {
    SessionInput(
      token.accessToken,
      token.refreshToken,
      ExpiryFrom(nowMs, token.expiresIn),
      token.restInstanceUrl,
      Some(SessionUser(user.id, user.email, user.culture, user.name)),
      Some(SessionOrganization(org.id, org.enterpriseId, org.stackKey, org.region)),
      None)
  }

  /** The successful answer: on to the dashboard, deleting the state cookie. */
  function SignedIn(baseUrl: string): Response {
    Redirect(Url(baseUrl, "/dashboard", []), true)
  }

  /** The state check fails only when both values are present and differ. */
  predicate StateMismatch(req: CallbackRequest) {
    Truthy(req.state) && Truthy(req.stateCookie) && req.state.value != req.stateCookie.value
  }

  predicate Configured(env: Env) {
    Truthy(env.authBaseUri) && Truthy(env.clientId) && Truthy(env.clientSecret)
  }

  /** The callback's decisions, in source order; network outcomes are inputs. */
  function CallbackGate(req: CallbackRequest, env: Env, nowMs: int,
                        tokenResult: HttpResult<TokenData>, userInfoResult: HttpResult<UserInfo>): (r: CallbackPlan)
    ensures |r.sent| <= 2
    ensures r.commit.Some? ==> |r.sent| == 2 && r.response == SignedIn(BaseUrl(env, req.origin))
    ensures r.commit.None? ==>
              && r.response.Redirect? && !r.response.clearsStateCookie
              && r.response.location.base == BaseUrl(env, req.origin) && r.response.location.path == "/"
  {
    var baseUrl := BaseUrl(env, req.origin);
    if Truthy(req.error) then
      CallbackPlan([], None, ErrorRedirect(baseUrl, OrElse(req.errorDescription, req.error.value)))
    else if !Truthy(req.code) then
      CallbackPlan([], None, ErrorRedirect(baseUrl, MissingCode))
    else if StateMismatch(req) then
      CallbackPlan([], None, ErrorRedirect(baseUrl, InvalidState))
    else if !Configured(env) then
      CallbackPlan([], None, ErrorRedirect(baseUrl, ConfigurationError))
    else
      var authBaseUri := env.authBaseUri.value;
      var tokenRequest := TokenRequest(authBaseUri, req.code.value, env.clientId.value, env.clientSecret.value,
                                       CallbackRedirectUri(env, req.origin));
      if tokenResult.NetworkError? then
        CallbackPlan([tokenRequest], None, ErrorRedirect(baseUrl, AuthenticationFailed))
      else if !IsOk(tokenResult) then
        CallbackPlan([tokenRequest], None, ErrorRedirect(baseUrl, TokenExchangeFailed))
      else if tokenResult.json.None? then
        CallbackPlan([tokenRequest], None, ErrorRedirect(baseUrl, AuthenticationFailed))
      else
        var token := tokenResult.json.value;
        var sent := [tokenRequest, UserInfoRequest(authBaseUri, token.accessToken)];
        if userInfoResult.NetworkError? then
          CallbackPlan(sent, None, ErrorRedirect(baseUrl, AuthenticationFailed))
        else if !IsOk(userInfoResult) then
          CallbackPlan(sent, None, ErrorRedirect(baseUrl, UserInfoFailed))
        else if userInfoResult.json.None? || userInfoResult.json.value.user.None?
                || userInfoResult.json.value.organization.None? then
          CallbackPlan(sent, None, ErrorRedirect(baseUrl, AuthenticationFailed))
        else
          var info := userInfoResult.json.value;
          CallbackPlan(sent, Some(SessionFrom(token, info.user.value, info.organization.value, nowMs)), SignedIn(baseUrl))
  }

  /** GET /api/auth/callback: runs the gate, then commits the session when it
      asks for it. A session that cannot be loaded fails as an exception. */
  method CallbackGet(store: SessionStore, req: CallbackRequest, env: Env, nowMs: int,
                     tokenResult: HttpResult<TokenData>, userInfoResult: HttpResult<UserInfo>)
    returns (response: Response, sent: seq<Request>)
    modifies store
    ensures sent == CallbackGate(req, env, nowMs, tokenResult, userInfoResult).sent
    ensures var plan := CallbackGate(req, env, nowMs, tokenResult, userInfoResult);
            plan.commit.None? ==>
              (response == plan.response
               && store.persisted == old(store.persisted) && store.cookieWrites == old(store.cookieWrites))
    ensures var plan := CallbackGate(req, env, nowMs, tokenResult, userInfoResult);
            plan.commit.Some? && !store.loadFails ==>
              (response == plan.response
               && store.persisted == Committed(old(store.persisted), plan.commit.value)
               && store.cookieWrites == old(store.cookieWrites) + [Saved(store.persisted)])
    ensures var plan := CallbackGate(req, env, nowMs, tokenResult, userInfoResult);
            plan.commit.Some? && store.loadFails ==>
              (response == ErrorRedirect(BaseUrl(env, req.origin), AuthenticationFailed)
               && store.persisted == old(store.persisted) && store.cookieWrites == old(store.cookieWrites))
  {
    var plan := CallbackGate(req, env, nowMs, tokenResult, userInfoResult);
    sent := plan.sent;
    response := plan.response;
    if plan.commit.Some? {
      var ok := store.CreateSession(plan.commit.value);
      if !ok {
        response := ErrorRedirect(BaseUrl(env, req.origin), AuthenticationFailed);
      }
    }
  }

  // ----- properties -----

  /** Every step succeeds: the exact condition for a session write. */
  predicate Accepted(req: CallbackRequest, env: Env, tokenResult: HttpResult<TokenData>, userInfoResult: HttpResult<UserInfo>) {
    && !Truthy(req.error) && Truthy(req.code) && !StateMismatch(req) && Configured(env)
    && tokenResult.Received? && 200 <= tokenResult.status <= 299 && tokenResult.json.Some?
    && userInfoResult.Received? && 200 <= userInfoResult.status <= 299 && userInfoResult.json.Some?
    && userInfoResult.json.value.user.Some? && userInfoResult.json.value.organization.Some?
  }

  /** A Provider error is looked at first, before the code, and its description is preferred. */
  lemma ProviderErrorFirst(req: CallbackRequest, env: Env, nowMs: int,
                           tokenResult: HttpResult<TokenData>, userInfoResult: HttpResult<UserInfo>)
    requires Truthy(req.error)
    ensures CallbackGate(req, env, nowMs, tokenResult, userInfoResult)
         == CallbackPlan([], None, ErrorRedirect(BaseUrl(env, req.origin), OrElse(req.errorDescription, req.error.value)))
  {
  }

  /** A missing or empty code is rejected, with no request sent. */
  lemma MissingCodeRejected(req: CallbackRequest, env: Env, nowMs: int,
                            tokenResult: HttpResult<TokenData>, userInfoResult: HttpResult<UserInfo>)
    requires !Truthy(req.error) && !Truthy(req.code)
    ensures CallbackGate(req, env, nowMs, tokenResult, userInfoResult)
         == CallbackPlan([], None, ErrorRedirect(BaseUrl(env, req.origin), MissingCode))
  {
  }

  /** Past the error and code checks, the state is rejected exactly when both
      the parameter and the cookie are present and differ; a missing one skips
      the check. */
  lemma StateRejectedIff(req: CallbackRequest, env: Env, nowMs: int,
                         tokenResult: HttpResult<TokenData>, userInfoResult: HttpResult<UserInfo>)
    requires !Truthy(req.error) && Truthy(req.code)
    ensures (CallbackGate(req, env, nowMs, tokenResult, userInfoResult).response
             == ErrorRedirect(BaseUrl(env, req.origin), InvalidState))
        <==> StateMismatch(req)
    ensures StateMismatch(req) ==> CallbackGate(req, env, nowMs, tokenResult, userInfoResult).commit.None?
  {
  }

  /** Missing configuration is reported as a redirect before any network call. */
  lemma ConfigCheckedBeforeNetwork(req: CallbackRequest, env: Env, nowMs: int,
                                   tokenResult: HttpResult<TokenData>, userInfoResult: HttpResult<UserInfo>)
    requires !Truthy(req.error) && Truthy(req.code) && !StateMismatch(req) && !Configured(env)
    ensures CallbackGate(req, env, nowMs, tokenResult, userInfoResult)
         == CallbackPlan([], None, ErrorRedirect(BaseUrl(env, req.origin), ConfigurationError))
  {
  }

  /** Any request sent is first the token request: an `authorization_code`
      grant carrying the code, the client credentials and the redirect URI. */
  lemma TokenRequestParameters(req: CallbackRequest, env: Env, nowMs: int,
                               tokenResult: HttpResult<TokenData>, userInfoResult: HttpResult<UserInfo>)
    ensures var plan := CallbackGate(req, env, nowMs, tokenResult, userInfoResult);
            plan.sent != [] ==>
              && Configured(env) && Truthy(req.code)
              && plan.sent[0].verb == "POST"
              && plan.sent[0].url == env.authBaseUri.value + "/v2/token"
              && plan.sent[0].form
                 == [QueryParam("grant_type", "authorization_code"), QueryParam("code", req.code.value),
                     QueryParam("client_id", env.clientId.value), QueryParam("client_secret", env.clientSecret.value),
                     QueryParam("redirect_uri", CallbackRedirectUri(env, req.origin))]
  {
  }

  /** The user-info request is sent only after a successful token exchange,
      with the returned access token as bearer credential. */
  lemma UserInfoAfterTokenExchange(req: CallbackRequest, env: Env, nowMs: int,
                                   tokenResult: HttpResult<TokenData>, userInfoResult: HttpResult<UserInfo>)
    ensures var plan := CallbackGate(req, env, nowMs, tokenResult, userInfoResult);
            |plan.sent| <= 2
            && (|plan.sent| == 2 ==>
                 && tokenResult.Received? && 200 <= tokenResult.status <= 299 && tokenResult.json.Some?
                 && plan.sent[1] == UserInfoRequest(env.authBaseUri.value, tokenResult.json.value.accessToken))
  {
  }

  /** A failed token exchange or user-info lookup is reported with its own
      message, an exception (a network failure of either request, an
      unparsable token or user-info answer, user info without user or
      organization) as "Authentication failed"; none of them writes. */
  lemma NetworkFailuresWriteNothing(req: CallbackRequest, env: Env, nowMs: int,
                                    tokenResult: HttpResult<TokenData>, userInfoResult: HttpResult<UserInfo>)
    requires !Truthy(req.error) && Truthy(req.code) && !StateMismatch(req) && Configured(env)
    ensures var plan := CallbackGate(req, env, nowMs, tokenResult, userInfoResult);
            var baseUrl := BaseUrl(env, req.origin);
            && (tokenResult.Received? && !(200 <= tokenResult.status <= 299) ==>
                  plan.response == ErrorRedirect(baseUrl, TokenExchangeFailed) && plan.commit.None?)
            && (tokenResult.NetworkError? ==> plan.response == ErrorRedirect(baseUrl, AuthenticationFailed) && plan.commit.None?)
            && (tokenResult.Received? && 200 <= tokenResult.status <= 299 && tokenResult.json.Some?
                && userInfoResult.Received? && !(200 <= userInfoResult.status <= 299) ==>
                  plan.response == ErrorRedirect(baseUrl, UserInfoFailed) && plan.commit.None?)
            && (tokenResult.Received? && 200 <= tokenResult.status <= 299 && tokenResult.json.None? ==>
                  plan.response == ErrorRedirect(baseUrl, AuthenticationFailed) && plan.commit.None?)
            && (tokenResult.Received? && 200 <= tokenResult.status <= 299 && tokenResult.json.Some?
                && userInfoResult.NetworkError? ==>
                  plan.response == ErrorRedirect(baseUrl, AuthenticationFailed) && plan.commit.None?)
            && (tokenResult.Received? && 200 <= tokenResult.status <= 299 && tokenResult.json.Some?
                && userInfoResult.Received? && 200 <= userInfoResult.status <= 299 && userInfoResult.json.None? ==>
                  plan.response == ErrorRedirect(baseUrl, AuthenticationFailed) && plan.commit.None?)
            && (tokenResult.Received? && 200 <= tokenResult.status <= 299 && tokenResult.json.Some?
                && userInfoResult.Received? && 200 <= userInfoResult.status <= 299 && userInfoResult.json.Some?
                && (userInfoResult.json.value.user.None? || userInfoResult.json.value.organization.None?) ==>
                  plan.response == ErrorRedirect(baseUrl, AuthenticationFailed) && plan.commit.None?)
  {
  }

  /** All or nothing: the gate asks for a session write exactly when every
      step succeeds, and then with the Provider's identity, the expiry
      `now + expires_in * 1000`, no API descriptors, and the answer that
      goes to the dashboard and deletes the state cookie. Otherwise the
      answer is an error redirect that keeps the cookie. */
  lemma CommitIffAccepted(req: CallbackRequest, env: Env, nowMs: int,
                          tokenResult: HttpResult<TokenData>, userInfoResult: HttpResult<UserInfo>)
    ensures var plan := CallbackGate(req, env, nowMs, tokenResult, userInfoResult);
            (plan.commit.Some? <==> Accepted(req, env, tokenResult, userInfoResult))
            && (plan.commit.Some? ==>
                  var token := tokenResult.json.value;
                  var user := userInfoResult.json.value.user.value;
                  var org := userInfoResult.json.value.organization.value;
                  && plan.commit.value.user == Some(SessionUser(user.id, user.email, user.culture, user.name))
                  && plan.commit.value.organization == Some(SessionOrganization(org.id, org.enterpriseId, org.stackKey, org.region))
                  && plan.commit.value.api == None
                  && plan.commit.value.accessToken == token.accessToken
                  && plan.commit.value.refreshToken == token.refreshToken
                  && plan.commit.value.restInstanceUrl == token.restInstanceUrl
                  && (token.expiresIn.Some? ==> plan.commit.value.tokenExpiresAt == Finite(nowMs + token.expiresIn.value * 1000))
                  && plan.response == Redirect(Url(BaseUrl(env, req.origin), "/dashboard", []), true))
            && (plan.commit.None? ==>
                  (plan.response.Redirect? && !plan.response.clearsStateCookie
                   && plan.response.location.path == "/" && |plan.response.location.query| == 1
                   && plan.response.location.query[0].name == "error"))
  {
  }
}
