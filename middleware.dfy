/** The route guard that runs before pages: protected paths need a
    logged-in session, and the test sign-on page is closed in production.
    It reads the session and never writes it. */
module Middleware {
  import opened Js
  import opened Http
  import opened Session

  const ProtectedRoutes: seq<string> := ["/dashboard"]

  /** `protectedRoutes.some(route => pathname.startsWith(route))`. */
  predicate IsProtectedRoute(pathname: string) {
    exists i :: 0 <= i < |ProtectedRoutes| && StartsWith(pathname, ProtectedRoutes[i])
  }

  /** The guard's answer for a request to `pathname` from `requestOrigin`;
      `session` is the record as the sealing library decodes it. */
  function Middleware(pathname: string, requestOrigin: string, session: SessionRecord, env: Env): (r: Response)
    ensures r.PassThrough? || (r.Redirect? && r.location.base == requestOrigin && r.location.path == "/"
                               && !r.clearsStateCookie)
    ensures r.Redirect? <==> (IsProtectedRoute(pathname) && !IsLoggedIn(session))
                             || (pathname == "/test-sso" && IsProduction(env))
  {
    if IsProtectedRoute(pathname) && !IsLoggedIn(session) then
      Redirect(Url(requestOrigin, "/", SetParam([], "redirect", pathname)), false)
    else if pathname == "/test-sso" && IsProduction(env) then
      Redirect(Url(requestOrigin, "/", []), false)
    else
      PassThrough
  }

  /** A path is protected exactly when it starts with "/dashboard". */
  lemma ProtectedIffDashboardPrefix(pathname: string)
    ensures IsProtectedRoute(pathname) <==> StartsWith(pathname, "/dashboard")
  {
    if StartsWith(pathname, "/dashboard") {
      assert StartsWith(pathname, ProtectedRoutes[0]);
    }
  }

  /** The guard's own test is a plain string prefix, not a path-segment
      match: it would protect "/dashboardx". The route matcher that decides
      which requests reach the guard is not modelled, and it only routes
      "/dashboard" and the paths below it, so this case arises only for
      callers of the test itself. */
  lemma PrefixIsNotSegmentMatch()
    ensures IsProtectedRoute("/dashboardx")
  {
    ProtectedIffDashboardPrefix("/dashboardx");
  }

  /** A protected path without a logged-in session is sent to "/" with a `redirect` hint. */
  lemma UnauthenticatedIsRedirected(pathname: string, origin: string, session: SessionRecord, env: Env)
    requires StartsWith(pathname, "/dashboard") && !IsLoggedIn(session)
    ensures Middleware(pathname, origin, session, env)
         == Redirect(Url(origin, "/", [QueryParam("redirect", pathname)]), false)
  {
    ProtectedIffDashboardPrefix(pathname);
    SetParamAppends([], "redirect", pathname);
  }

  /** A protected path with a logged-in session passes through, in any environment. */
  lemma AuthenticatedPassesThrough(pathname: string, origin: string, session: SessionRecord, env: Env)
    requires StartsWith(pathname, "/dashboard") && IsLoggedIn(session)
    ensures Middleware(pathname, origin, session, env) == PassThrough
  {
    ProtectedIffDashboardPrefix(pathname);
    assert |pathname| >= 10 > |"/test-sso"|;
  }

  /** Only the login flag is consulted: sessions that agree on it (whatever
      their tokens or expiry) get the same answer. */
  lemma OnlyLoginFlagConsulted(pathname: string, origin: string, a: SessionRecord, b: SessionRecord, env: Env)
    requires IsLoggedIn(a) == IsLoggedIn(b)
    ensures Middleware(pathname, origin, a, env) == Middleware(pathname, origin, b, env)
  {
  }

  /** In production "/test-sso" is sent to "/" without a hint. */
  lemma TestSsoBlockedInProduction(origin: string, session: SessionRecord, env: Env)
    requires IsProduction(env)
    ensures Middleware("/test-sso", origin, session, env) == Redirect(Url(origin, "/", []), false)
  {
    ProtectedIffDashboardPrefix("/test-sso");
  }

  /** Every other request passes through. */
  lemma OtherPathsPassThrough(pathname: string, origin: string, session: SessionRecord, env: Env)
    requires !StartsWith(pathname, "/dashboard")
    requires pathname != "/test-sso" || !IsProduction(env)
    ensures Middleware(pathname, origin, session, env) == PassThrough
  {
    ProtectedIffDashboardPrefix(pathname);
  }
}
