# Marketing Cloud app: session and sign-on lifecycle in Dafny

This project models the session and authentication lifecycle of a Next.js
web application that is embedded in Salesforce Marketing Cloud. It proves
properties of that model. The parts modelled are:

- **The session store.** One sealed cookie holds a session record (`src/lib/session.ts`). `getSession` loads it and normalises the logged-in flag, `createSession` marks it logged in with an identity, and `destroySession` clears it. The class `Session.SessionStore` keeps the decoded record and a log of the cookie writes it issued.
- **The OAuth 2.0 authorization-code flow** (sections 4.1.1 to 4.1.3 and 10.12 of RFC 6749).
  - The login page (`Login`) builds the authorization request and sets the `oauth_state` cookie.
  - The callback (`Callback`) runs its checks in source order: Provider error, code, CSRF state, configuration, token exchange, user-info lookup. Only then does it perform the all-or-nothing session write.
- **The route guard** (`Middleware`). It keeps `/dashboard…` away from visitors who are not logged in, and closes `/test-sso` in production.
- **The API routes.**
  - `SessionRoute` is the session status endpoint.
  - `Logout` signs the visitor out.
  - `DataExtensions` lists data extensions. It has two 401 gates (no login, expired token), trailing-slash normalisation of the instance URL, the item mapping and the pagination fallbacks.
  - `TestJwtRoute` is the development-only test-token endpoint.
- **Legacy signed-token handling** (`Jwt`). It verifies Marketing Cloud's HS256 token (section 3.2 of RFC 7518): checks the algorithm, signature and expiry, then runs the ordered field checks and maps the errors. It also builds the defaulted test token.
- **Cross-route properties** (`Lifecycle`). Examples: login and callback agree on the redirect URI and on the state, and a completed sign-in opens the dashboard.

The modelling choices are:

- **JavaScript semantics are explicit** (`Js`).
  - A value that may be missing is an `Option`.
  - `Truthy`, `OrElse` and `NumberOr` give `!!x` and `x || d`.
  - `ParseInt` is `parseInt(x, 10)` with `NaN`. `ParseIntNoRadix` is `parseInt(x)` with no radix: after white space and a sign, a `0x` or `0X` prefix selects base 16.
  - `IntToString` is `String(n)` for integers of magnitude below 10^21, printed as all their decimal digits; larger ones are not printed in exponent form (see "## Left out"). `Interpolate` is `${x}`.
- **Each handler is a pure function** from its inputs to a `Http.Response`. The inputs are the query, the session snapshot, environment variables, the clock, the random state and the network outcomes. Where the source handler loads or writes the session, a method over `SessionStore` calls the store and is proved equal to that function.
- **Network calls are inputs.** Each one is an `HttpResult` (`NetworkError`, or a status, a text and the parsed JSON). Each plan records the requests the handler would send.
- **jsonwebtoken is an idealised library.**
  - A token is either `Malformed` or remembers its algorithm, its claims and the key it was signed with.
  - `SignatureValid` is agreement with that key.
  - `Expired(exp, now)` is `now >= exp`, in seconds.
  - The library's checks run in its order: format, secret, algorithm, signature, expiry.
  - An unsigned token (algorithm "none", empty signature) cannot be represented, because every `Compact` token carries the key it was signed with; the library's "jwt signature is required" answer for it is not modelled.

Facts about the code that the model keeps:

- `createSession` stores only `isLoggedIn`, `user`, `organization` and `api` (`src/lib/session.ts:38-43`). The access token, refresh token, expiry and instance URL that the callback passes are not written. The record keeps whatever an earlier cookie held in those fields. `Lifecycle.SignedInSessionLacksToken` proves the consequence: unless an earlier cookie held an access token, a fresh sign-in is refused by the data-extension listing, and the login page sends the visitor to the Provider again.
- The listing compares the stored expiry with `now` strictly, with no safety margin (`src/app/api/data-extensions/route.ts:53-66`). No route refreshes a token.
- A missing configuration in the callback gives an error redirect (`src/app/api/auth/callback/route.ts:47-58`). The login page answers 500 for it (`src/app/api/auth/login/route.ts:27-33`).
- No route calls `verifyMarketingCloudJWT`. POST on the login route runs the GET handler (`src/app/api/auth/login/route.ts:82-84`).
- The status endpoint does not report the expiry (`src/app/api/auth/session/route.ts:18-24`).
- The listing's upstream failure answer includes the upstream error text (`src/app/api/data-extensions/route.ts:91-109`).
- The callback deletes the `oauth_state` cookie only on success (`src/app/api/auth/callback/route.ts:129-130`). Every error redirect keeps it.
- The test-token endpoint calls `parseInt` with no radix (`src/app/api/auth/test-jwt/route.ts:29-32`), so `"0x1A"` is read as 26. The listing passes radix 10 (`src/app/api/data-extensions/route.ts:69-70`).

## Model

| member | source | states |
|---|---|---|
| `Types.DefaultSessionIsEmpty` | src/lib/types.ts:76-78 | the default session is logged out, with no user, organization or API descriptors |
| `Session.SessionStore.GetSession` | src/lib/session.ts:21-30 | returns nothing exactly when loading throws; otherwise the stored record with a missing or false flag read as `false`, a stored `true` kept, and every other field unchanged |
| `Session.SessionStore.CreateSession` | src/lib/session.ts:35-44 | on a loadable session: sets the flag to `true`, copies `user`, `organization` and `api` from the argument, keeps every other stored field, and appends exactly one cookie save of the new record; when loading throws, nothing changes |
| `Session.SessionStore.DestroySession` | src/lib/session.ts:49-52 | on a loadable session: the cookie becomes empty and one clear is logged; when loading throws, nothing changes |
| `Session.SessionStore.Save` | src/lib/session.ts:43 | the saved record becomes the persisted one and exactly one write is logged |
| `Session.Normalise` | src/lib/session.ts:21-30 | the loaded record's flag is present and true exactly when a `true` was stored; every other field is the stored one |
| `Session.Committed` | src/lib/session.ts:35-44 | the saved record is logged in with the argument's user, organization and api, and keeps the stored access token, expiry and instance URL |
| `Session.NormaliseFlag` | src/lib/session.ts:25-27 | after loading, the flag is present, true exactly when a `true` was stored; no other field differs; loading twice equals loading once |
| `Session.CommittedFields` | src/lib/session.ts:38-41 | the committed record is logged in with the argument's user, organization and api, and keeps the stored access token, expiry and instance URL |
| `Session.CommittedIgnoresTokens` | src/lib/session.ts:38-41 | arguments that differ only in their token fields commit the same record |
| `Session.CreateThenGet` | src/lib/session.ts:21-44 | loading after `createSession(d)` yields a logged-in session with `d`'s user, organization and api |
| `Session.DestroyThenGet` | src/lib/session.ts:49-52 | loading after `destroySession` yields the default session: logged out, no user, organization or api |
| `Jwt.VerifyMarketingCloudJwt` | src/lib/jwt.ts:11-47 | a success is an HS256 token's own claims and they carry request, user, organization and rest; a failure is the expiry message, a "JWT verification failed: " message or one of the four missing-field messages |
| `Jwt.TestPayload` | src/lib/jwt.ts:63-104 | the test payload passes the field checks, with claims version 2 and an application |
| `Jwt.CreateTestJwt` | src/lib/jwt.ts:53-107 | signing succeeds exactly for a non-empty secret, giving an HS256 token signed with it, stamped with the current second, carrying the payload's `exp` and passing the field checks |
| `Jwt.OnlyHs256` | src/lib/jwt.ts:16-18 | a well-formed token with any other algorithm fails as "JWT verification failed: invalid algorithm" |
| `Jwt.VerifyErrorMapping` | src/lib/jwt.ts:38-46 | the library's expiry error, and only it, becomes "JWT token has expired"; its other errors become "JWT verification failed: " plus the message; a verified token's field-check result passes unchanged |
| `Jwt.FieldCheckOrder` | src/lib/jwt.ts:21-37 | the request, user, organization and rest checks run in that order and the first missing one names the error; passing them returns the claims unmodified |
| `Jwt.VerifySucceedsIff` | src/lib/jwt.ts:11-47 | verification succeeds exactly for a well-formed HS256 token signed with the secret, not expired, with request, user, organization and rest, and then returns its claims |
| `Jwt.TestPayloadDefaults` | src/lib/jwt.ts:63-69 | without options the test payload uses user 12345, "test@example.com", MID 100000001, EID 100000000 and one hour |
| `Jwt.TestPayloadUsesGivenOptions` | src/lib/jwt.ts:63-94 | given options are used as passed, even falsy ones, and `exp` is the current second plus `expiresIn` |
| `Jwt.TestTokenShape` | src/lib/jwt.ts:71-106 | with a non-empty secret the test token is an HS256 token signed with it, stamped with the current second, whose claims pass the field checks |
| `Jwt.TestTokenRoundTrip` | src/lib/jwt.ts:53-107 | a test token verifies under its own secret before its `exp` second and yields its claims, is reported expired from then on, and fails its signature under any other secret |
| `Js.ParseInt` | src/app/api/data-extensions/route.ts:69-70 | `parseInt(x, 10)` gives a number only when the text holds a digit |
| `Js.ParseIntOfIntToString` | src/app/api/data-extensions/route.ts:69-70 | `parseInt` reads back every integer printed with all its decimal digits, which is `String`'s output below 10^21 |
| `Js.NoRadixOfIntToString` | src/app/api/auth/test-jwt/route.ts:29-32 | without a radix, the decimal text of an integer takes the base-10 path and reads back as that integer |
| `Js.HexPrefixRead` | src/app/api/auth/test-jwt/route.ts:29-32 | without a radix, "0x1A" is 26, "-0X10" is -16 and a bare "0x" is NaN, while base 10 reads "0x1A" as 0 |
| `Js.ParseIntValueOfNumber` | src/app/api/auth/test-jwt/route.ts:29-32 | `parseInt` with no radix of a JSON number yields that number |
| `Js.ParseIntOfNonNumeric` | src/app/api/auth/test-jwt/route.ts:29-32 | `parseInt` with no radix of undefined, null, a boolean or an object is NaN |
| `Http.SetParam` | src/app/api/auth/login/route.ts:37-42 | after `searchParams.set` the pair is present |
| `Http.SetParamContents` | src/app/api/auth/login/route.ts:37-42 | after `searchParams.set` the name occurs once, every parameter with another name is kept, and none is added |
| `Http.SetParamAppends` | src/app/api/auth/login/route.ts:37-42 | setting a name that is not present appends the pair at the end |
| `Http.GetParamAfterSet` | src/app/api/auth/login/route.ts:37-42 | reading a parameter back after setting it yields the value set |
| `Middleware.Middleware` | src/middleware.ts:16-48 | the guard passes the request through or redirects to "/" on the request's origin without touching the state cookie, and it redirects exactly for a protected path without a logged-in session or for "/test-sso" in production |
| `Middleware.ProtectedIffDashboardPrefix` | src/middleware.ts:20-23 | a path is protected exactly when it starts with "/dashboard" |
| `Middleware.PrefixIsNotSegmentMatch` | src/middleware.ts:20-23 | the guard's own test accepts "/dashboardx", because it is a string prefix and not a path segment; the matcher at lines 50-52 never routes that path to the guard |
| `Middleware.UnauthenticatedIsRedirected` | src/middleware.ts:20-39 | a protected path without a logged-in session is redirected to "/" with `redirect=<pathname>` |
| `Middleware.AuthenticatedPassesThrough` | src/middleware.ts:35-47 | a protected path with a logged-in session passes through in any environment |
| `Middleware.OnlyLoginFlagConsulted` | src/middleware.ts:35 | sessions that agree on the login flag get the same answer, whatever their tokens or expiry |
| `Middleware.TestSsoBlockedInProduction` | src/middleware.ts:43-45 | exactly "/test-sso" in production is redirected to "/" without a hint |
| `Middleware.OtherPathsPassThrough` | src/middleware.ts:43-47 | every other request passes through |
| `Callback.CallbackGate` | src/app/api/auth/callback/route.ts:11-139 | at most two requests; a session write only with both requests sent and the redirect to "/dashboard" that deletes the state cookie; otherwise an error redirect to "/" on the base URL that keeps it |
| `Callback.CallbackGet` | src/app/api/auth/callback/route.ts:11-139 | sends the gate's requests; writes the session only when the gate commits, with the committed record and one save; a session that cannot be loaded ends in "Authentication failed" with nothing written |
| `Callback.ProviderErrorFirst` | src/app/api/auth/callback/route.ts:22-27 | a truthy `error` is checked first, sends nothing, and redirects with `error_description` or else `error` |
| `Callback.MissingCodeRejected` | src/app/api/auth/callback/route.ts:30-35 | a missing or empty code redirects with "Missing authorization code" and sends nothing |
| `Callback.StateRejectedIff` | src/app/api/auth/callback/route.ts:38-44 | the answer is "Invalid state parameter" exactly when both `state` and the cookie are truthy and differ; then nothing is written |
| `Callback.ConfigCheckedBeforeNetwork` | src/app/api/auth/callback/route.ts:47-58 | missing base URI, client id or client secret redirects with "Server configuration error" before any request |
| `Callback.TokenRequestParameters` | src/app/api/auth/callback/route.ts:62-74 | the first request is a POST to `/v2/token` with grant_type=authorization_code, the code, the client credentials and `MC_REDIRECT_URI` or else the base URL plus "/api/auth/callback" |
| `Callback.UserInfoAfterTokenExchange` | src/app/api/auth/callback/route.ts:84-93 | the user-info request is sent only after a successful token exchange, with "Bearer " and the returned access token |
| `Callback.NetworkFailuresWriteNothing` | src/app/api/auth/callback/route.ts:76-137 | a non-ok token exchange gives "Token exchange failed" and a non-ok lookup "Failed to fetch user info"; the exceptions (a network failure of either request, an unparsable token or user-info answer, user info without user or organization) give "Authentication failed"; none writes |
| `Callback.CommitIffAccepted` | src/app/api/auth/callback/route.ts:103-131 | the session write happens exactly when every check passes, with the Provider's user and organization, the expiry `now + expires_in * 1000`, no api, and a redirect to "/dashboard" that deletes the state cookie; every other answer is an error redirect to "/" that keeps it |
| `Login.LoginResponse` | src/app/api/auth/login/route.ts:11-79 | the answer is a redirect on the base URL that keeps the cookies, the 500 configuration error, or the sign-on page; the page is served only for a loaded session without a live login, with the configuration present, and it sets `oauth_state` to the random value and goes to `/v2/authorize` on the base URI |
| `Login.LoginGet` | src/app/api/auth/login/route.ts:11-79 | loads the session without writing it and answers as the login decision for the loaded snapshot |
| `Login.LoginPost` | src/app/api/auth/login/route.ts:82-84 | POST answers exactly as GET |
| `Login.AuthorizeQueryContents` | src/app/api/auth/login/route.ts:36-42 | the authorization query is response_type=code, client_id, redirect_uri and state, in that order |
| `Login.DashboardIffLoggedInWithToken` | src/app/api/auth/login/route.ts:16-19 | the answer is the dashboard redirect, with no state issued, exactly when the session loads, is logged in and holds a truthy access token |
| `Login.MissingConfigurationIs500` | src/app/api/auth/login/route.ts:27-33 | otherwise the answer is the 500 configuration error exactly when the base URI or client id is missing; the client secret is not needed |
| `Login.AuthorizePageShape` | src/app/api/auth/login/route.ts:22-71 | the sign-on page goes to `/v2/authorize` with the callback's redirect URI, and sets `oauth_state` (path "/", max-age 600, SameSite None, Secure) to the same value as the `state` parameter |
| `Login.FailuresRedirectWithError` | src/app/api/auth/login/route.ts:72-78 | a session that cannot be loaded, or an authorization URL that does not parse, redirects with "Login failed" |
| `SessionRoute.SessionStatus` | src/app/api/auth/session/route.ts:8-32 | the answer is JSON, 200 or 500, and 500 with "Failed to fetch session" exactly when loading throws |
| `SessionRoute.SessionGet` | src/app/api/auth/session/route.ts:8-32 | loads the session without writing it and answers as the status projection of the loaded snapshot |
| `SessionRoute.StatusCases` | src/app/api/auth/session/route.ts:12-31 | 500 exactly when loading throws; exactly `200 {isLoggedIn: false}` for a loaded session that is not logged in; exactly `200` with the user, the organization and `hasApiAccess` for a logged-in one, where `hasApiAccess` holds exactly when a non-empty refresh token is stored |
| `SessionRoute.NoSecretsExposed` | src/app/api/auth/session/route.ts:18-24 | records that agree on flag, identity and presence of a refresh token get the same answer, so no token, endpoint or expiry is exposed |
| `Logout.LogoutGet` | src/app/api/auth/logout/route.ts:8-21 | clears the session when it loads, leaves it alone when loading throws, and redirects to "/" on the base URL in both cases |
| `Logout.LogoutPost` | src/app/api/auth/logout/route.ts:23-25 | POST behaves exactly as GET |
| `DataExtensions.RestBase` | src/app/api/data-extensions/route.ts:73-75 | the base always ends in "/", and it is the instance URL itself or the instance URL plus "/" |
| `DataExtensions.MapItems` | src/app/api/data-extensions/route.ts:115-120 | one entry per item, in order, each the mapped item |
| `DataExtensions.Listing` | src/app/api/data-extensions/route.ts:29-138 | the answer is JSON with at most one request sent; a request goes out only for a logged-in session with a token and an instance URL; a 200 is a listing with its request sent; the two 401 bodies send nothing |
| `DataExtensions.DataExtensionsGet` | src/app/api/data-extensions/route.ts:29-138 | loads the session without writing it and answers and sends as the listing decision for the loaded snapshot |
| `DataExtensions.UnauthorizedIff` | src/app/api/data-extensions/route.ts:40-51 | the answer is the 401 "Unauthorized" exactly when the session is not logged in or has no truthy access token; then nothing is sent |
| `DataExtensions.ExpiryIsStrict` | src/app/api/data-extensions/route.ts:53-66 | an authorized session is refused as expired exactly when its expiry is non-zero and strictly before now; the 401 reports a positive `expiredAgo` |
| `DataExtensions.RequestNeedsLiveToken` | src/app/api/data-extensions/route.ts:68-89 | a request goes out only for an authorized, unexpired session with an instance URL, and it is the listing request for the parsed page and page size with the session's token |
| `DataExtensions.ListingRequestShape` | src/app/api/data-extensions/route.ts:79-89 | the listing request is a GET of exactly the attribute-set URL, `?$page=`, the page, `&$pageSize=` and the page size as `String` prints them, with the bearer token, a JSON content type and no body |
| `DataExtensions.DefaultListingUrl` | src/app/api/data-extensions/route.ts:69-83 | the default page 1 of 50 is requested as `?$page=1&$pageSize=50` |
| `DataExtensions.PagingDefaults` | src/app/api/data-extensions/route.ts:69-70 | an absent or empty page is 1 and an absent or empty page size is 50 |
| `DataExtensions.PagingRoundTrip` | src/app/api/data-extensions/route.ts:69-70 | a paging parameter written as an integer is read as that integer |
| `DataExtensions.UpstreamFailurePassedOn` | src/app/api/data-extensions/route.ts:91-109 | a non-ok upstream answer is returned with the same status, the endpoint, the instance URL and the upstream text |
| `DataExtensions.InternalErrorCases` | src/app/api/data-extensions/route.ts:29-138 | the 500 "Internal server error" answers: a session load that throws and a missing instance URL send nothing; a network failure and an unparsable ok answer come after the one listing request |
| `DataExtensions.ListingContents` | src/app/api/data-extensions/route.ts:112-128 | the listing has one entry per item (none when items are missing), with id, key and category copied and the name or else the key; total is the truthy count or else the entry count; page is the truthy upstream page or else the requested one; page size is the truthy upstream page size or else the requested one |
| `TestJwtRoute.TestJwtResponse` | src/app/api/auth/test-jwt/route.ts:8-44 | the answer is JSON with status 200, 403 or 500; 403 exactly in production; 200 exactly when a token is issued; any other answer is an error message |
| `TestJwtRoute.OptionsFrom` | src/app/api/auth/test-jwt/route.ts:28-34 | every option is set: the three numbers are non-zero, the email is non-empty and the lifetime is 3600 |
| `TestJwtRoute.BlockedInProduction` | src/app/api/auth/test-jwt/route.ts:10-15 | in production the answer is 403 whatever the body and secret |
| `TestJwtRoute.FailureOrder` | src/app/api/auth/test-jwt/route.ts:18-43 | an unparsable body fails before the secret is read; a missing secret is reported before the body's fields are read; a null body fails with "Failed to generate JWT" |
| `TestJwtRoute.OptionDefaults` | src/app/api/auth/test-jwt/route.ts:28-34 | missing, non-numeric or zero fields and an empty email take the defaults; integers, as numbers or decimal text, are used as given; the lifetime is 3600 |
| `TestJwtRoute.HexOptions` | src/app/api/auth/test-jwt/route.ts:28-34 | numeric fields are read without a radix: "0x1A" gives user 26, "-0X10" gives EID -16, and a bare "0x" takes the default MID |
| `TestJwtRoute.IssuedTokenVerifies` | src/app/api/auth/test-jwt/route.ts:28-36 | a token is issued exactly outside production for a parsed non-null body and a configured secret; it verifies under that secret for the next hour and is reported expired afterwards |
| `Lifecycle.LoginRedirectUri` | src/app/api/auth/login/route.ts:24-39 | the authorization request's `redirect_uri` is `MC_REDIRECT_URI` or else the base URL plus "/api/auth/callback" |
| `Lifecycle.CallbackRedirectParam` | src/app/api/auth/callback/route.ts:50-72 | the token request's `redirect_uri` is the same expression |
| `Lifecycle.RedirectUriAgrees` | src/app/api/auth/callback/route.ts:50-51 | for one origin and environment, login and callback present the same redirect URI |
| `Lifecycle.IssuedStateAccepted` | src/app/api/auth/callback/route.ts:38-44 | returning the state the login page issued, with the cookie it set, passes the CSRF check |
| `Lifecycle.SignedInSession` | src/app/api/auth/callback/route.ts:107-131 | after a completed sign-in the guard lets the dashboard through and the status reports the Provider's identity without API access |
| `Lifecycle.SignedInSessionLacksToken` | src/app/api/data-extensions/route.ts:40-51 | after a sign-in over a cookie with no access token, the listing answers 401 with `hasAccessToken` false and the login page starts the flow again |
| `Lifecycle.SignedOutSession` | src/app/api/auth/logout/route.ts:10-13 | after sign-out the status is logged out and the dashboard redirects to "/" with the hint |
| `Lifecycle.SignInListSignOut` | src/app/api/auth/callback/route.ts:107-131 | on a fresh store: the callback signs in and goes to the dashboard, the listing then refuses with 401, the status shows no API access, and sign-out redirects home, leaving the cookie empty after exactly two writes: the logged-in save and the clear |

The datatypes in `Types` carry the declared shapes of `src/lib/types.ts` directly:
- only `isLoggedIn` is mandatory in `SessionData`;
- `api` has exactly its three strings;
- `MCRequestPayload` requires `rest`, `user` and `organization`;
- `MCJWTPayload` requires `exp`;
- `MCOrganization` requires `id` and `enterpriseId`.

The guard `Middleware.Middleware` is a function of a session snapshot, so it cannot write the session.

## Left out

- Sealing, encryption and cookie encoding by the session library. The store keeps the decoded record, a log of writes, and one flag saying that every load throws (a rejected sealing configuration).
- A failing `save()`, for example a cookie over the size limit. Saves always succeed.
- HMAC-SHA256 and the library's claim checks other than `exp` (`nbf`, `aud`, `iss`). Signature validity is agreement with the signing key, so distinct secrets are always told apart, even where HMAC would accept an equivalent key (a key shorter than 64 bytes and the same key padded with zero bytes).
- Unsigned tokens (algorithm "none", empty signature). The library refuses them with "jwt signature is required" before the algorithm check; the model's tokens always carry a signing key, so `Jwt.OnlyHs256` covers signed tokens only.
- Network I/O. Outcomes are inputs. Timeouts and retries are not modelled.
- `crypto.randomUUID`, `Date.now` and `process.env` are parameters.
- The handlers call `Date.now()` more than once. The model uses one clock value per request.
- `console` logging.
- The HTML and script text of the login page. The model keeps the cookie attributes and the authorization URL.
- URL parsing.
  - For the login page, a failure of `new URL(MC_AUTH_BASE_URI + "/v2/authorize")` is a boolean input.
  - An invalid base URL or request URL elsewhere is not modelled.
  - For the listing, a missing instance URL (`"undefined/…"`) throws before anything is sent. Other non-absolute instance URLs reach the upstream input as a network failure.
- JSON values the types do not describe are not modelled. Examples: floats, arrays where objects are expected, a non-string `email` in the test-token body, an `expires_in` that is not an integer, and an upstream status that cannot carry a body.
- Integers are unbounded, so `parseInt` never rounds to a double.
- Exponent form of large numbers. JavaScript's `String` prints a number of magnitude 10^21 or more in exponent form: `String(1e21)` is `"1e+21"`, which `parseInt` reads as 1. `Js.IntToString` always prints every decimal digit, so the members below hold of the source only below 10^21 in magnitude.
- ParseIntOfIntToString: the round trip holds of the source's `String` only for magnitudes below 10^21.
- NoRadixOfIntToString: holds of the source only below 10^21 in magnitude; from 10^21 up the source's text is `"1e+21"`-style and `parseInt` stops at the `e`.
- ParseIntValueOfNumber: in the source a JSON number of 10^21 or more becomes `"1e+21"`-style text and parses to its leading digits (1e21 gives 1); the model gives the number itself.
- ListingRequestShape: the page and page size are written with every digit; the source writes `1e+21` for a page of 10^21 or more.
- PagingRoundTrip: in the source a page of 10^21 or more does not read back after `String`; the model's all-digit text does.
- OptionDefaults: "integers given as numbers are used as given" holds in the source only below 10^21 in magnitude; a `userId` of 1e21 becomes 1 there.
- `undefined` and `null` are not distinguished in optional fields.
- The middleware matcher configuration (`src/middleware.ts:50-52`). The guard is modelled for any path.
- A middleware session load that throws is not modelled.
- Concurrency between requests on one session.
- The UI pages and `next.config.ts`.
- Token refresh. The code has none.
