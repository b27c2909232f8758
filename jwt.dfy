/** Legacy signed-token handling: verification of a Marketing Cloud JWT
    (JSON Web Token, RFC 7519, signed with HMAC SHA-256 as "HS256" of
    section 3.2 of RFC 7518) followed by the checks on its payload, and
    construction of a signed test token.

    The signing library is idealised. A token is kept as its header
    algorithm, its claims and the key its MAC was computed with, and a MAC
    checks exactly when the verifying secret is that key; the base64url
    compact serialisation is not modelled. */
module Jwt {
  import opened Js
  import opened Types

  // ----- the decoded claims: what a token actually carries -----

  /** The `request` claim as decoded; the payload type is only a cast, so
      every sub-object may be missing. */
  datatype DecodedRequest = DecodedRequest(
    claimsVersion: Option<int>,
    rest: Option<MCRestInfo>,
    user: Option<MCUser>,
    organization: Option<MCOrganization>,
    application: Option<MCApplication>)

  /** The claims set as decoded. `iat` is added by the signing library. */
  datatype DecodedClaims = DecodedClaims(
    exp: Option<int>,
    iat: Option<int>,
    jti: Option<string>,
    request: Option<DecodedRequest>)

  /** The claims set a typed payload serialises to. */
  function ClaimsOf(p: MCJWTPayload): DecodedClaims {
    var r := p.request;
    DecodedClaims(Some(p.exp), None, p.jti,
      Some(DecodedRequest(r.claimsVersion, Some(r.rest), Some(r.user), Some(r.organization), r.application)))
  }

  /** A token string: either not a well-formed compact JWS, or a header
      algorithm, the claims and the key its signature was made with. */
  datatype SignedToken = Malformed | Compact(alg: string, claims: DecodedClaims, signingKey: string)

  /** The HMAC check, idealised: it passes exactly when the secret is the signing key. */
  predicate SignatureValid(t: SignedToken, secret: string)
    requires t.Compact?
  {
    t.signingKey == secret
  }

  /** The library's expiry rule: a token is expired from its `exp` second on. */
  predicate Expired(exp: int, nowSec: int) {
    nowSec >= exp
  }

  /** The two error classes the library raises: `TokenExpiredError` is a
      subclass of `JsonWebTokenError`, but is told apart first. */
  datatype LibraryError = TokenExpiredError | JsonWebTokenError(message: string)

  /** The library's verify: form, key presence, allowed algorithm, signature, then expiry. */
  function LibraryVerify(token: SignedToken, secret: string, algorithms: seq<string>, nowSec: int)
    : Result<DecodedClaims, LibraryError>
  {
    if token.Malformed? then Failure(JsonWebTokenError("jwt malformed"))
    else if secret == "" then Failure(JsonWebTokenError("secret or public key must be provided"))
    else if token.alg !in algorithms then Failure(JsonWebTokenError("invalid algorithm"))
    else if !SignatureValid(token, secret) then Failure(JsonWebTokenError("invalid signature"))
    else if token.claims.exp.Some? && Expired(token.claims.exp.value, nowSec) then Failure(TokenExpiredError)
    else Success(token.claims)
  }

  /** The library's sign: refuses an empty key and stamps `iat` unless the claims carry a truthy one. */
  function LibrarySign(claims: DecodedClaims, secret: string, alg: string, nowMs: int): Result<SignedToken, string> {
    if secret == "" then Failure("secretOrPrivateKey must have a value")
    else
      var iat := if TruthyInt(claims.iat) then claims.iat.value else nowMs / 1000;
      Success(Compact(alg, claims.(iat := Some(iat)), secret))
  }

  // ----- verifyMarketingCloudJWT -----

  const ExpiredMessage := "JWT token has expired"
  const VerificationFailedPrefix := "JWT verification failed: "
  const MissingRequest := "Invalid JWT: missing request payload"
  const MissingUser := "Invalid JWT: missing user information"
  const MissingOrganization := "Invalid JWT: missing organization information"
  const MissingRest := "Invalid JWT: missing REST API information"

  /** The required-field checks, in source order; the first missing field names the error. */
  function CheckFields(decoded: DecodedClaims): Result<DecodedClaims, string> {
    if decoded.request.None? then Failure(MissingRequest)
    else if decoded.request.value.user.None? then Failure(MissingUser)
    else if decoded.request.value.organization.None? then Failure(MissingOrganization)
    else if decoded.request.value.rest.None? then Failure(MissingRest)
    else Success(decoded)
  }

  /** Verifies `token` under `secret` allowing only HS256 at clock time `nowMs`,
      then checks its payload. Library errors are mapped to the two messages;
      the field-check errors pass through unchanged. */
  function VerifyMarketingCloudJwt(token: SignedToken, secret: string, nowMs: int): (r: Result<DecodedClaims, string>)
    ensures r.Success? ==> token.Compact? && token.alg == "HS256" && r.value == token.claims && WellFormed(r.value)
    ensures r.Failure? ==>
              || r.error == ExpiredMessage
              || StartsWith(r.error, VerificationFailedPrefix)
              || r.error in [MissingRequest, MissingUser, MissingOrganization, MissingRest]
  {
    match LibraryVerify(token, secret, ["HS256"], nowMs / 1000)
    case Failure(TokenExpiredError) => Failure(ExpiredMessage)
    case Failure(JsonWebTokenError(message)) =>
      assert (VerificationFailedPrefix + message)[..|VerificationFailedPrefix|] == VerificationFailedPrefix;
      Failure(VerificationFailedPrefix + message)
    case Success(decoded) => CheckFields(decoded)
  }

  /** The claims carry everything the typed payload declares mandatory below `request`. */
  predicate WellFormed(c: DecodedClaims) {
    c.request.Some? && c.request.value.user.Some? && c.request.value.organization.Some?
    && c.request.value.rest.Some?
  }

  // ----- createTestJWT -----

  /** The options of `createTestJWT`; an absent option takes its default. */
  datatype TestJwtOptions = TestJwtOptions(
    userId: Option<int>,
    email: Option<string>,
    mid: Option<int>,
    eid: Option<int>,
    expiresIn: Option<int>)

  const DefaultUserId := 12345
  const DefaultEmail := "test@example.com"
  const DefaultMid := 100000001
  const DefaultEid := 100000000
  const DefaultExpiresIn := 3600

  /** Destructuring with a default: only an undefined option is replaced. */
  function IntOption(o: Option<int>, fallback: int): int {
    if o.Some? then o.value else fallback
  }

  function StringOption(o: Option<string>, fallback: string): string {
    if o.Some? then o.value else fallback
  }

  /** The payload `createTestJWT` signs at clock time `nowMs`. */
  function TestPayload(options: Option<TestJwtOptions>, nowMs: int): (r: MCJWTPayload)
    ensures WellFormed(ClaimsOf(r)) && CheckFields(ClaimsOf(r)) == Success(ClaimsOf(r))
    ensures r.request.claimsVersion == Some(2) && r.request.application.Some?
  {
    var o := if options.Some? then options.value else TestJwtOptions(None, None, None, None, None);
    var userId := IntOption(o.userId, DefaultUserId);
    var email := StringOption(o.email, DefaultEmail);
    var mid := IntOption(o.mid, DefaultMid);
    var eid := IntOption(o.eid, DefaultEid);
    var expiresIn := IntOption(o.expiresIn, DefaultExpiresIn);
    MCJWTPayload(
      nowMs / 1000 + expiresIn,
      Some("test-" + IntToString(nowMs)),
      MCRequestPayload(
        Some(2),
        MCRestInfo(
          "https://YOUR_SUBDOMAIN.auth.marketingcloudapis.com/",
          "https://YOUR_SUBDOMAIN.rest.marketingcloudapis.com/",
          "test-refresh-token-for-development"),
        MCUser(userId, email, "en-US", Some(MCUserTimezone("EST", "Eastern Standard Time", -5, true))),
        MCOrganization(mid, eid, Some("core"), Some("S1"), Some("NA1")),
        Some(MCApplication("test-app-id", "test-package", None, None, None))))
  }

  /** Signs the test payload with HS256. */
  function CreateTestJwt(secret: string, options: Option<TestJwtOptions>, nowMs: int): (r: Result<SignedToken, string>)
    ensures r.Success? <==> secret != ""
    ensures r.Success? ==>
              && r.value.Compact? && r.value.alg == "HS256" && r.value.signingKey == secret
              && r.value.claims.iat == Some(nowMs / 1000)
              && r.value.claims.exp == Some(TestPayload(options, nowMs).exp)
              && WellFormed(r.value.claims)
  {
    LibrarySign(ClaimsOf(TestPayload(options, nowMs)), secret, "HS256", nowMs)
  }

  // ----- properties -----

  /** Only HS256 is accepted: a well-formed token with any other algorithm fails as a verification error. */
  lemma OnlyHs256(token: SignedToken, secret: string, nowMs: int)
    requires token.Compact? && token.alg != "HS256" && secret != ""
    ensures VerifyMarketingCloudJwt(token, secret, nowMs) == Failure(VerificationFailedPrefix + "invalid algorithm")
  {
  }

  /** The error mapping: the library's expiry error, and only it, becomes the
      expiry message; its other errors become the prefixed verification
      message; a verified token is either returned or fails a field check. */
  lemma VerifyErrorMapping(token: SignedToken, secret: string, nowMs: int)
    ensures var lib := LibraryVerify(token, secret, ["HS256"], nowMs / 1000);
            ((VerifyMarketingCloudJwt(token, secret, nowMs) == Failure(ExpiredMessage))
             <==> (lib == Failure(TokenExpiredError)))
            && (lib.Failure? && lib.error.JsonWebTokenError? ==>
                 VerifyMarketingCloudJwt(token, secret, nowMs) == Failure(VerificationFailedPrefix + lib.error.message))
            && (lib.Success? ==> VerifyMarketingCloudJwt(token, secret, nowMs) == CheckFields(lib.value))
  {
    var lib := LibraryVerify(token, secret, ["HS256"], nowMs / 1000);
    if lib.Failure? && lib.error.JsonWebTokenError? {
      PrefixedIsNotExpired(lib.error.message);
    }
    if lib.Success? {
      FieldErrorsAreNotExpired(lib.value);
    }
  }

  lemma PrefixedIsNotExpired(m: string)
    ensures VerificationFailedPrefix + m != ExpiredMessage
  {
    assert (VerificationFailedPrefix + m)[4] == 'v' && ExpiredMessage[4] == 't';
  }

  lemma FieldErrorsAreNotExpired(d: DecodedClaims)
    ensures CheckFields(d) != Failure(ExpiredMessage)
  {
    assert MissingRequest[0] != ExpiredMessage[0];
    assert MissingUser[0] != ExpiredMessage[0];
    assert MissingOrganization[0] != ExpiredMessage[0];
    assert MissingRest[0] != ExpiredMessage[0];
  }

  /** The field checks run in the order request, user, organization, rest,
      and the first one missing decides the message. */
  lemma FieldCheckOrder(d: DecodedClaims)
    ensures d.request.None? ==> CheckFields(d) == Failure(MissingRequest)
    ensures d.request.Some? && d.request.value.user.None? ==> CheckFields(d) == Failure(MissingUser)
    ensures (d.request.Some? && d.request.value.user.Some? && d.request.value.organization.None?)
            ==> CheckFields(d) == Failure(MissingOrganization)
    ensures (d.request.Some? && d.request.value.user.Some? && d.request.value.organization.Some?
             && d.request.value.rest.None?) ==> CheckFields(d) == Failure(MissingRest)
    ensures CheckFields(d).Success? <==> WellFormed(d)
    ensures CheckFields(d).Success? ==> CheckFields(d).value == d
  {
  }

  /** Verification succeeds exactly for a well-formed HS256 token signed with
      the secret, not expired, whose claims have request, user, organization
      and rest; and it returns the claims unmodified. */
  lemma VerifySucceedsIff(token: SignedToken, secret: string, nowMs: int)
    ensures VerifyMarketingCloudJwt(token, secret, nowMs).Success?
        <==> (token.Compact? && secret != "" && token.alg == "HS256" && SignatureValid(token, secret)
              && !(token.claims.exp.Some? && Expired(token.claims.exp.value, nowMs / 1000))
              && WellFormed(token.claims))
    ensures VerifyMarketingCloudJwt(token, secret, nowMs).Success?
        ==> VerifyMarketingCloudJwt(token, secret, nowMs).value == token.claims
  {
  }

  /** With no options the test token uses the documented defaults. */
  lemma TestPayloadDefaults(nowMs: int)
    ensures var p := TestPayload(None, nowMs);
            p.request.user.id == 12345 && p.request.user.email == "test@example.com"
            && p.request.organization.id == 100000001 && p.request.organization.enterpriseId == 100000000
            && p.exp == nowMs / 1000 + 3600
  {
  }

  /** A given option is used as is, even a falsy one such as 0 or "". */
  lemma TestPayloadUsesGivenOptions(o: TestJwtOptions, nowMs: int)
    requires o.userId.Some? && o.email.Some? && o.mid.Some? && o.eid.Some? && o.expiresIn.Some?
    ensures var p := TestPayload(Some(o), nowMs);
            p.request.user.id == o.userId.value && p.request.user.email == o.email.value
            && p.request.organization.id == o.mid.value && p.request.organization.enterpriseId == o.eid.value
            && p.exp == nowMs / 1000 + o.expiresIn.value
  {
  }

  /** A test token is an HS256 token signed with the secret whose claims pass the field checks. */
  lemma TestTokenShape(secret: string, options: Option<TestJwtOptions>, nowMs: int)
    requires secret != ""
    ensures CreateTestJwt(secret, options, nowMs).Success?
    ensures var t := CreateTestJwt(secret, options, nowMs).value;
            t.Compact? && t.alg == "HS256" && t.signingKey == secret
            && t.claims == ClaimsOf(TestPayload(options, nowMs)).(iat := Some(nowMs / 1000))
            && CheckFields(t.claims) == Success(t.claims)
  {
  }

  /** Round trip: a test token verifies under its own secret until its `exp`
      second, yielding its claims; from then on it is reported expired; under
      any other secret it fails its signature. */
  lemma TestTokenRoundTrip(secret: string, options: Option<TestJwtOptions>, nowMs: int, laterMs: int, other: string)
    requires secret != "" && other != "" && other != secret
    ensures var t := CreateTestJwt(secret, options, nowMs).value;
            var exp := TestPayload(options, nowMs).exp;
            (laterMs / 1000 < exp ==> VerifyMarketingCloudJwt(t, secret, laterMs) == Success(t.claims))
            && (laterMs / 1000 >= exp ==> VerifyMarketingCloudJwt(t, secret, laterMs) == Failure(ExpiredMessage))
            && VerifyMarketingCloudJwt(t, other, laterMs) == Failure(VerificationFailedPrefix + "invalid signature")
  {
    TestTokenShape(secret, options, nowMs);
  }
}
