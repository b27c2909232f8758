/** The sign-on entry point: a session that is logged in and holds an access
    token goes straight to the dashboard; otherwise the handler answers with a
    page that sets the CSRF state cookie and sends the top-level window to the
    Provider's authorization endpoint (section 4.1.1 of RFC 6749). */
module Login {
  import opened Js
  import opened Session
  import opened Http

  const LoginFailed := "Login failed"
  const MissingConfiguration := "Server configuration error: Missing MC_AUTH_BASE_URI or MC_CLIENT_ID"

  /** The query of the authorization request, built by successive `set` calls
      on a URL without a query. */
  function AuthorizeQuery(clientId: string, redirectUri: string, state: string): seq<QueryParam> {
    SetParam(SetParam(SetParam(SetParam([], "response_type", "code"), "client_id", clientId),
                      "redirect_uri", redirectUri), "state", state)
  }

  /** The state cookie the page sets: ten minutes, whole site, cross-site, secure only. */
  function OAuthStateCookie(state: string): StateCookie {
    StateCookie("oauth_state", state, "/", 600, "None", true)
  }

  /** The login answer. `loaded` is what `GetSession` returned (`None`: it
      threw); `uuid` is the random state; `authorizeUrlParses` says whether
      `MC_AUTH_BASE_URI + "/v2/authorize"` is an absolute URL. */
  function LoginResponse(loaded: Option<SessionRecord>, env: Env, origin: string, uuid: string,
                         authorizeUrlParses: bool): (r: Response)
    ensures r.Redirect? || r.Html? || r == Json(500, ErrorMessage(MissingConfiguration))
    ensures r.Redirect? ==> r.location.base == BaseUrl(env, origin) && !r.clearsStateCookie
    ensures r.Html? ==>
              && loaded.Some? && !(IsLoggedIn(loaded.value) && Truthy(loaded.value.accessToken))
              && Truthy(env.authBaseUri) && Truthy(env.clientId) && authorizeUrlParses
              && r.stateCookie.name == "oauth_state" && r.stateCookie.value == uuid
              && r.authorizeUrl.base == env.authBaseUri.value && r.authorizeUrl.path == "/v2/authorize"
  {
    if loaded.None? then
      ErrorRedirect(BaseUrl(env, origin), LoginFailed)
    else if IsLoggedIn(loaded.value) && Truthy(loaded.value.accessToken) then
      Redirect(Url(BaseUrl(env, origin), "/dashboard", []), false)
    else if !Truthy(env.authBaseUri) || !Truthy(env.clientId) then
      Json(500, ErrorMessage(MissingConfiguration))
    else if !authorizeUrlParses then
      ErrorRedirect(BaseUrl(env, origin), LoginFailed)
    else
      Html(OAuthStateCookie(uuid),
           Url(env.authBaseUri.value, "/v2/authorize",
               AuthorizeQuery(env.clientId.value, CallbackRedirectUri(env, origin), uuid)))
  }

  /** GET /api/auth/login: loads the session and answers; it writes nothing. */
  method LoginGet(store: SessionStore, env: Env, origin: string, uuid: string, authorizeUrlParses: bool)
    returns (response: Response)
    ensures response == LoginResponse(if store.loadFails then None else Some(Normalise(store.persisted)),
                                      env, origin, uuid, authorizeUrlParses)
  {
    var loaded := store.GetSession();
    if loaded.None? {
      return ErrorRedirect(BaseUrl(env, origin), LoginFailed);
    }
    var session := loaded.value;
    if IsLoggedIn(session) && Truthy(session.accessToken) {
      return Redirect(Url(BaseUrl(env, origin), "/dashboard", []), false);
    }
    var redirectUri := CallbackRedirectUri(env, origin);
    if !Truthy(env.authBaseUri) || !Truthy(env.clientId) {
      return Json(500, ErrorMessage(MissingConfiguration));
    }
    if !authorizeUrlParses {
      return ErrorRedirect(BaseUrl(env, origin), LoginFailed);
    }
    var query := SetParam([], "response_type", "code");
    query := SetParam(query, "client_id", env.clientId.value);
    query := SetParam(query, "redirect_uri", redirectUri);
    query := SetParam(query, "state", uuid);
    response := Html(OAuthStateCookie(uuid), Url(env.authBaseUri.value, "/v2/authorize", query));
  }

  /** POST /api/auth/login answers exactly as GET. */
  method LoginPost(store: SessionStore, env: Env, origin: string, uuid: string, authorizeUrlParses: bool)
    returns (response: Response)
    ensures response == LoginResponse(if store.loadFails then None else Some(Normalise(store.persisted)),
                                      env, origin, uuid, authorizeUrlParses)
  {
    response := LoginGet(store, env, origin, uuid, authorizeUrlParses);
  }

  // ----- properties -----

  /** The four parameters of the authorization request, in order. */
  lemma AuthorizeQueryContents(clientId: string, redirectUri: string, state: string)
    ensures AuthorizeQuery(clientId, redirectUri, state)
         == [QueryParam("response_type", "code"), QueryParam("client_id", clientId),
             QueryParam("redirect_uri", redirectUri), QueryParam("state", state)]
  {
    var p1, p2, p3, p4 := QueryParam("response_type", "code"), QueryParam("client_id", clientId),
                          QueryParam("redirect_uri", redirectUri), QueryParam("state", state);
    assert p1.name[0] != p2.name[0] && p1.name[2] != p3.name[2] && p1.name[0] != p4.name[0];
    assert p2.name[0] != p3.name[0] && p2.name[0] != p4.name[0] && p3.name[0] != p4.name[0];
    SetFourDistinct(p1, p2, p3, p4);
  }

  /** Setting distinctly named parameters on an empty query lists them in
      order: two, three and four of them. */
  lemma SetTwoDistinct(p1: QueryParam, p2: QueryParam)
    requires p1.name != p2.name
    ensures SetParam(SetParam([], p1.name, p1.value), p2.name, p2.value) == [p1, p2]
  {
    SetParamAppends([], p1.name, p1.value);
    SetParamAppends([p1], p2.name, p2.value);
  }

  lemma SetThreeDistinct(p1: QueryParam, p2: QueryParam, p3: QueryParam)
    requires p1.name != p2.name && p1.name != p3.name && p2.name != p3.name
    ensures SetParam(SetParam(SetParam([], p1.name, p1.value), p2.name, p2.value), p3.name, p3.value) == [p1, p2, p3]
  {
    SetTwoDistinct(p1, p2);
    SetParamAppends([p1, p2], p3.name, p3.value);
  }

  lemma SetFourDistinct(p1: QueryParam, p2: QueryParam, p3: QueryParam, p4: QueryParam)
    requires p1.name != p2.name && p1.name != p3.name && p1.name != p4.name
    requires p2.name != p3.name && p2.name != p4.name && p3.name != p4.name
    ensures SetParam(SetParam(SetParam(SetParam([], p1.name, p1.value), p2.name, p2.value), p3.name, p3.value),
                     p4.name, p4.value)
         == [p1, p2, p3, p4]
  {
    SetThreeDistinct(p1, p2, p3);
    SetParamAppends([p1, p2, p3], p4.name, p4.value);
  }

  /** The handler skips the Provider exactly when the session loads, is
      logged in and holds a truthy access token, whatever the configuration. */
  lemma DashboardIffLoggedInWithToken(loaded: Option<SessionRecord>, env: Env, origin: string, uuid: string,
                                      authorizeUrlParses: bool)
    ensures LoginResponse(loaded, env, origin, uuid, authorizeUrlParses)
            == Redirect(Url(BaseUrl(env, origin), "/dashboard", []), false)
        <==> (loaded.Some? && IsLoggedIn(loaded.value) && Truthy(loaded.value.accessToken))
  {
  }

  /** Without the base URI or the client id the answer is a 500, before any
      state is made; the client secret is not needed here. */
  lemma MissingConfigurationIs500(loaded: Option<SessionRecord>, env: Env, origin: string, uuid: string,
                                  authorizeUrlParses: bool)
    requires loaded.Some? && !(IsLoggedIn(loaded.value) && Truthy(loaded.value.accessToken))
    ensures LoginResponse(loaded, env, origin, uuid, authorizeUrlParses) == Json(500, ErrorMessage(MissingConfiguration))
        <==> (!Truthy(env.authBaseUri) || !Truthy(env.clientId))
  {
  }

  /** The sign-on page: the cookie and the `state` parameter carry the same
      random value, and the request names the code flow, the client and the
      same redirect URI the callback presents when it exchanges the code. */
  lemma AuthorizePageShape(loaded: Option<SessionRecord>, env: Env, origin: string, uuid: string,
                           authorizeUrlParses: bool)
    ensures var r := LoginResponse(loaded, env, origin, uuid, authorizeUrlParses);
            r.Html? ==>
              && loaded.Some? && Truthy(env.authBaseUri) && Truthy(env.clientId) && authorizeUrlParses
              && r.stateCookie == StateCookie("oauth_state", uuid, "/", 600, "None", true)
              && r.authorizeUrl.base == env.authBaseUri.value
              && r.authorizeUrl.path == "/v2/authorize"
              && r.authorizeUrl.query
                 == [QueryParam("response_type", "code"), QueryParam("client_id", env.clientId.value),
                     QueryParam("redirect_uri", CallbackRedirectUri(env, origin)), QueryParam("state", uuid)]
              && GetParam(r.authorizeUrl.query, "state") == Some(r.stateCookie.value)
  {
    if env.authBaseUri.Some? && env.clientId.Some? {
      var redirectUri := CallbackRedirectUri(env, origin);
      AuthorizeQueryContents(env.clientId.value, redirectUri, uuid);
      GetParamAfterSet(SetParam(SetParam(SetParam([], "response_type", "code"), "client_id", env.clientId.value),
                                "redirect_uri", redirectUri), "state", uuid);
    }
  }

  /** A session that cannot be loaded, or an authorization URL that does not
      parse, ends in the "Login failed" redirect. */
  lemma FailuresRedirectWithError(loaded: Option<SessionRecord>, env: Env, origin: string, uuid: string)
    ensures LoginResponse(None, env, origin, uuid, true) == ErrorRedirect(BaseUrl(env, origin), LoginFailed)
    ensures loaded.Some? && !(IsLoggedIn(loaded.value) && Truthy(loaded.value.accessToken))
            && Truthy(env.authBaseUri) && Truthy(env.clientId)
            ==> LoginResponse(loaded, env, origin, uuid, false) == ErrorRedirect(BaseUrl(env, origin), LoginFailed)
  {
  }
}
