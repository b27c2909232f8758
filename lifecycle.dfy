/** How the routes fit together over one session cookie: the login page and
    the callback agree on the redirect URI and the state, a completed sign-in
    opens the dashboard, and sign-out closes it again. */
module Lifecycle {
  import opened Js
  import opened Session
  import opened Http
  import opened Middleware
  import opened Login
  import opened Callback
  import opened SessionRoute
  import opened DataExtensions
  import Logout

  /** The redirect URI in the authorization request is the one the callback
      presents when it exchanges the code, as section 4.1.3 of RFC 6749 requires. */
  lemma RedirectUriAgrees(loaded: Option<SessionRecord>, env: Env, origin: string, uuid: string,
                          req: CallbackRequest, nowMs: int,
                          tokenResult: HttpResult<TokenData>, userInfoResult: HttpResult<UserInfo>)
    requires req.origin == origin
    requires LoginResponse(loaded, env, origin, uuid, true).Html?
    requires CallbackGate(req, env, nowMs, tokenResult, userInfoResult).sent != []
    ensures GetParam(LoginResponse(loaded, env, origin, uuid, true).authorizeUrl.query, "redirect_uri")
         == GetParam(CallbackGate(req, env, nowMs, tokenResult, userInfoResult).sent[0].form, "redirect_uri")
         == Some(CallbackRedirectUri(env, origin))
  {
    LoginRedirectUri(loaded, env, origin, uuid);
    CallbackRedirectParam(req, env, nowMs, tokenResult, userInfoResult);
  }

  lemma LoginRedirectUri(loaded: Option<SessionRecord>, env: Env, origin: string, uuid: string)
    requires LoginResponse(loaded, env, origin, uuid, true).Html?
    ensures GetParam(LoginResponse(loaded, env, origin, uuid, true).authorizeUrl.query, "redirect_uri")
         == Some(CallbackRedirectUri(env, origin))
  {
    var r := LoginResponse(loaded, env, origin, uuid, true);
    var redirect := QueryParam("redirect_uri", CallbackRedirectUri(env, origin));
    AuthorizePageShape(loaded, env, origin, uuid, true);
    var before := [QueryParam("response_type", "code"), QueryParam("client_id", env.clientId.value)];
    assert r.authorizeUrl.query == before + [redirect] + [QueryParam("state", uuid)];
    assert "response_type"[2] != "redirect_uri"[2] && "client_id"[0] != "redirect_uri"[0];
    GetParamFirst(before, redirect, [QueryParam("state", uuid)]);
  }

  lemma CallbackRedirectParam(req: CallbackRequest, env: Env, nowMs: int,
                              tokenResult: HttpResult<TokenData>, userInfoResult: HttpResult<UserInfo>)
    requires CallbackGate(req, env, nowMs, tokenResult, userInfoResult).sent != []
    ensures GetParam(CallbackGate(req, env, nowMs, tokenResult, userInfoResult).sent[0].form, "redirect_uri")
         == Some(CallbackRedirectUri(env, req.origin))
  {
    var redirect := QueryParam("redirect_uri", CallbackRedirectUri(env, req.origin));
    TokenRequestParameters(req, env, nowMs, tokenResult, userInfoResult);
    var fields := [QueryParam("grant_type", "authorization_code"), QueryParam("code", req.code.value),
                   QueryParam("client_id", env.clientId.value), QueryParam("client_secret", env.clientSecret.value)];
    assert CallbackGate(req, env, nowMs, tokenResult, userInfoResult).sent[0].form == fields + [redirect] + [];
    GetParamFirst(fields, redirect, []);
  }

  /** A callback that returns the state the login page issued, with the
      cookie the page set, passes the CSRF check. */
  lemma IssuedStateAccepted(loaded: Option<SessionRecord>, env: Env, origin: string, uuid: string,
                            req: CallbackRequest)
    requires LoginResponse(loaded, env, origin, uuid, true).Html?
    requires req.state == GetParam(LoginResponse(loaded, env, origin, uuid, true).authorizeUrl.query, "state")
    requires req.stateCookie == Some(LoginResponse(loaded, env, origin, uuid, true).stateCookie.value)
    ensures !StateMismatch(req)
  {
    AuthorizePageShape(loaded, env, origin, uuid, true);
  }

  /** After a completed sign-in the dashboard is open and the status endpoint
      reports the Provider's identity, but without API access. */
  lemma SignedInSession(rec: SessionRecord, req: CallbackRequest, env: Env, nowMs: int,
                        tokenResult: HttpResult<TokenData>, userInfoResult: HttpResult<UserInfo>,
                        pathname: string)
    requires Accepted(req, env, tokenResult, userInfoResult)
    ensures var d := CallbackGate(req, env, nowMs, tokenResult, userInfoResult).commit.value;
            var after := Normalise(Committed(rec, d));
            && Middleware.Middleware(pathname, req.origin, after, env) == (
                 if pathname == "/test-sso" && IsProduction(env) then Redirect(Url(req.origin, "/", []), false)
                 else PassThrough)
            && SessionStatus(Some(after))
               == Json(200, LoggedIn(d.user, d.organization, false))
            && d.user.Some? && d.organization.Some?
  {
    CommitIffAccepted(req, env, nowMs, tokenResult, userInfoResult);
  }

  /** The sign-in keeps no token: the callback's access token, expiry and
      instance URL are not written, so unless an earlier cookie already held
      an access token, the listing refuses the fresh session with 401 and
      the login page sends the visitor to the Provider again. */
  lemma SignedInSessionLacksToken(rec: SessionRecord, req: CallbackRequest, env: Env, nowMs: int,
                                  tokenResult: HttpResult<TokenData>, userInfoResult: HttpResult<UserInfo>,
                                  listNowMs: int, pageParam: Option<string>, pageSizeParam: Option<string>,
                                  upstream: HttpResult<AttributeSetResponse>, uuid: string)
    requires Accepted(req, env, tokenResult, userInfoResult)
    requires !Truthy(rec.accessToken)
    ensures var d := CallbackGate(req, env, nowMs, tokenResult, userInfoResult).commit.value;
            var after := Normalise(Committed(rec, d));
            && Listing(Some(after), listNowMs, pageParam, pageSizeParam, upstream)
               == ListingPlan([], Json(401, Unauthorized(true, false)))
            && LoginResponse(Some(after), env, req.origin, uuid, true).Html?
  {
    CommitIffAccepted(req, env, nowMs, tokenResult, userInfoResult);
  }

  /** After sign-out the status endpoint reports a logged-out visitor and the
      dashboard sends them back to the root. */
  lemma SignedOutSession(env: Env, origin: string, pathname: string)
    requires StartsWith(pathname, "/dashboard")
    ensures SessionStatus(Some(Normalise(EmptyRecord))) == Json(200, LoggedOut)
    ensures Middleware.Middleware(pathname, origin, Normalise(EmptyRecord), env)
         == Redirect(Url(origin, "/", [QueryParam("redirect", pathname)]), false)
  {
    UnauthenticatedIsRedirected(pathname, origin, Normalise(EmptyRecord), env);
  }

  /** A whole visit on a fresh cookie: the callback signs the visitor in and
      sends them to the dashboard, the listing then refuses for want of an
      access token, and sign-out clears the cookie: the store ends empty with
      the sign-in save and the clear as its only writes. */
  method SignInListSignOut(req: CallbackRequest, env: Env, nowMs: int,
                           tokenResult: HttpResult<TokenData>, userInfoResult: HttpResult<UserInfo>,
                           pageParam: Option<string>, pageSizeParam: Option<string>,
                           upstream: HttpResult<AttributeSetResponse>)
    returns (signIn: Response, listing: Response, status: Response, signOut: Response,
             finalRecord: SessionRecord, writes: seq<CookieWrite>)
    requires Accepted(req, env, tokenResult, userInfoResult)
    ensures signIn == Redirect(Url(BaseUrl(env, req.origin), "/dashboard", []), true)
    ensures listing == Json(401, Unauthorized(true, false))
    ensures status.Json? && status.body.LoggedIn? && !status.body.hasApiAccess
    ensures signOut == Redirect(Url(BaseUrl(env, req.origin), "/", []), false)
    ensures finalRecord == EmptyRecord
    ensures |writes| == 2 && writes[0].Saved? && IsLoggedIn(writes[0].record) && writes[1] == Cleared
  {
    CommitIffAccepted(req, env, nowMs, tokenResult, userInfoResult);
    var store := new SessionStore(EmptyRecord, false);
    var sent;
    signIn, sent := CallbackGet(store, req, env, nowMs, tokenResult, userInfoResult);
    listing, sent := DataExtensionsGet(store, nowMs, pageParam, pageSizeParam, upstream);
    status := SessionGet(store);
    signOut := Logout.LogoutGet(store, env, req.origin);
    finalRecord, writes := store.persisted, store.cookieWrites;
  }
}
