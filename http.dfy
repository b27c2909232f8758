/** What the request handlers share: the configuration they read from the
    environment, URLs with query parameters, the outbound requests they make,
    the outcomes of those requests, and the responses they return. */
module Http {
  import opened Js
  import opened Types
  import Jwt

  /** The environment variables the handlers read; an unset one is `None`. */
  datatype Env = Env(
    nodeEnv: Option<string>,          // NODE_ENV
    appUrl: Option<string>,           // NEXT_PUBLIC_APP_URL
    authBaseUri: Option<string>,      // MC_AUTH_BASE_URI
    clientId: Option<string>,         // MC_CLIENT_ID
    clientSecret: Option<string>,     // MC_CLIENT_SECRET
    redirectUri: Option<string>,      // MC_REDIRECT_URI
    jwtSigningSecret: Option<string>) // MC_JWT_SIGNING_SECRET

  predicate IsProduction(env: Env) {
    env.nodeEnv == Some("production")
  }

  /** The application's public base: `NEXT_PUBLIC_APP_URL || origin`. */
  function BaseUrl(env: Env, origin: string): string {
    OrElse(env.appUrl, origin)
  }

  /** The OAuth redirect URI: `MC_REDIRECT_URI || baseUrl + "/api/auth/callback"`. */
  function CallbackRedirectUri(env: Env, origin: string): string {
    OrElse(env.redirectUri, BaseUrl(env, origin) + "/api/auth/callback")
  }

  // ----- URLs -----

  datatype QueryParam = QueryParam(name: string, value: string)

  /** A URL as a base (origin, or the full text before any query) with a path and query parameters. */
  datatype Url = Url(base: string, path: string, query: seq<QueryParam>)

  /** `searchParams.set(name, value)`: the first parameter called `name` takes
      the value and any later ones are removed; with none, it is appended. */
  function SetParam(query: seq<QueryParam>, name: string, value: string): (r: seq<QueryParam>)
    ensures QueryParam(name, value) in r
    decreases |query|
  {
    if query == [] then [QueryParam(name, value)]
    else if query[0].name == name then [QueryParam(name, value)] + Without(query[1..], name)
    else [query[0]] + SetParam(query[1..], name, value)
  }

  /** After `set`, exactly one parameter has the name, and the parameters
      with other names are those there were before. */
  lemma {:induction false} SetParamContents(query: seq<QueryParam>, name: string, value: string)
    ensures var r := SetParam(query, name, value);
            && (forall i, j :: 0 <= i < |r| && 0 <= j < |r| && r[i].name == name && r[j].name == name ==> i == j)
            && (forall p :: p in query && p.name != name ==> p in r)
            && (forall p :: p in r && p.name != name ==> p in query)
    decreases |query|
  {
    if query != [] && query[0].name != name {
      SetParamContents(query[1..], name, value);
      assert query == [query[0]] + query[1..];
    }
  }

  /** `query` with every parameter called `name` removed. */
  function Without(query: seq<QueryParam>, name: string): (r: seq<QueryParam>)
    ensures forall p :: p in r <==> p in query && p.name != name
    decreases |query|
  {
    if query == [] then []
    else if query[0].name == name then Without(query[1..], name)
    else [query[0]] + Without(query[1..], name)
  }

  /** Setting a name that is not yet present appends it. */
  lemma {:induction false} SetParamAppends(query: seq<QueryParam>, name: string, value: string)
    requires forall i :: 0 <= i < |query| ==> query[i].name != name
    ensures SetParam(query, name, value) == query + [QueryParam(name, value)]
    decreases |query|
  {
    if query != [] {
      SetParamAppends(query[1..], name, value);
      assert query == [query[0]] + query[1..];
    }
  }

  /** A URL query parameter's value: the first one called `name`, if any. */
  function GetParam(query: seq<QueryParam>, name: string): Option<string> {
    if query == [] then None
    else if query[0].name == name then Some(query[0].value)
    else GetParam(query[1..], name)
  }

  /** Reading back a parameter after setting it yields the value set. */
  lemma {:induction false} GetParamAfterSet(query: seq<QueryParam>, name: string, value: string)
    ensures GetParam(SetParam(query, name, value), name) == Some(value)
    decreases |query|
  {
    if query != [] && query[0].name != name {
      GetParamAfterSet(query[1..], name, value);
    }
  }

  /** The first parameter with a name is the one read back. */
  lemma {:induction false} GetParamFirst(before: seq<QueryParam>, p: QueryParam, after: seq<QueryParam>)
    requires forall i :: 0 <= i < |before| ==> before[i].name != p.name
    ensures GetParam(before + [p] + after, p.name) == Some(p.value)
    decreases |before|
  {
    if before != [] {
      GetParamFirst(before[1..], p, after);
      assert (before + [p] + after)[1..] == before[1..] + [p] + after;
    }
  }

  // ----- outbound requests and their outcomes -----

  datatype Header = Header(name: string, value: string)

  /** An outbound HTTP request: verb (HTTP method), URL text, headers and form-encoded body. */
  datatype Request = Request(verb: string, url: string, headers: seq<Header>, form: seq<QueryParam>)

  /** The outcome of a `fetch`: the promise rejected (network failure), or a
      response with its status, its text, and its body parsed as JSON
      (`None` when parsing throws or the body is `null`). */
  datatype HttpResult<T> = NetworkError | Received(status: int, text: string, json: Option<T>)

  /** `response.ok`: the status is in the range 200-299. */
  predicate IsOk<T>(r: HttpResult<T>)
    requires r.Received?
  {
    200 <= r.status <= 299
  }

  // ----- responses -----

  /** The CSRF state cookie the login page sets before leaving for the Provider. */
  datatype StateCookie = StateCookie(name: string, value: string, path: string, maxAge: int, sameSite: string, secure: bool)

  /** One data extension in the listing. */
  datatype DataExtension = DataExtension(id: string, key: string, name: string, categoryId: Option<int>)

  datatype Pagination = Pagination(page: Number, pageSize: Number, total: int)

  /** The JSON bodies the handlers send. */
  datatype Body =
    | ErrorMessage(error: string)
    | Unauthorized(isLoggedIn: bool, hasAccessToken: bool)
    | TokenExpired(tokenExpiresAt: int, now: int, expiredAgo: int)
    | UpstreamFailure(endpoint: string, status: int, restInstanceUrl: Option<string>, details: string)
    | DataExtensions(items: seq<DataExtension>, pagination: Pagination)
    | LoggedOut
    | LoggedIn(user: Option<SessionUser>, organization: Option<SessionOrganization>, hasApiAccess: bool)
    | TokenIssued(token: Jwt.SignedToken)

  datatype Response =
    | Redirect(location: Url, clearsStateCookie: bool)
    | Json(status: int, body: Body)
    | Html(stateCookie: StateCookie, authorizeUrl: Url)
    | PassThrough

  /** A redirect to the application root carrying an `error` message. */
  function ErrorRedirect(base: string, message: string): Response {
    Redirect(Url(base, "/", [QueryParam("error", message)]), false)
  }
}
