/** The development-only endpoint that issues a signed test token shaped like
    the ones Marketing Cloud posts to the application. */
module TestJwtRoute {
  import opened Js
  import opened Http
  import Jwt

  /** The request body: it did not parse, it parsed to `null`, or it parsed to
      something whose `userId`, `email`, `mid` and `eid` can be read (a
      missing property is `Undefined`; `email` is modelled as a string). */
  datatype TestJwtBody =
    | Unparsable
    | NullBody
    | Fields(userId: JsonValue, email: Option<string>, mid: JsonValue, eid: JsonValue)

  const NotAvailable := "Not available in production"
  const SecretMissing := "MC_JWT_SIGNING_SECRET not configured"
  const GenerationFailed := "Failed to generate JWT"

  /** The options passed on: `parseInt(x) || default` for the numbers,
      `email || default`, and a fixed one-hour lifetime. */
  function OptionsFrom(userId: JsonValue, email: Option<string>, mid: JsonValue, eid: JsonValue): (r: Jwt.TestJwtOptions)
    ensures r.userId.Some? && r.userId.value != 0
    ensures r.email.Some? && r.email.value != ""
    ensures r.mid.Some? && r.mid.value != 0
    ensures r.eid.Some? && r.eid.value != 0
    ensures r.expiresIn == Some(3600)
  {
    Jwt.TestJwtOptions(
      Some(NumberOr(ParseIntValue(userId), Jwt.DefaultUserId)),
      Some(OrElse(email, Jwt.DefaultEmail)),
      Some(NumberOr(ParseIntValue(mid), Jwt.DefaultMid)),
      Some(NumberOr(ParseIntValue(eid), Jwt.DefaultEid)),
      Some(3600))
  }

  /** POST /api/auth/test-jwt at clock time `nowMs`. */
  function TestJwtResponse(env: Env, body: TestJwtBody, nowMs: int): (r: Response)
    ensures r.Json? && (r.status == 200 || r.status == 403 || r.status == 500)
    ensures r.status == 403 <==> IsProduction(env)
    ensures r.status == 200 <==> r.body.TokenIssued?
    ensures r.status != 200 ==> r.body.ErrorMessage?
  {
    if IsProduction(env) then Json(403, ErrorMessage(NotAvailable))
    else if body.Unparsable? then Json(500, ErrorMessage(GenerationFailed))
    else if !Truthy(env.jwtSigningSecret) then Json(500, ErrorMessage(SecretMissing))
    else if body.NullBody? then Json(500, ErrorMessage(GenerationFailed))
    else
      match Jwt.CreateTestJwt(env.jwtSigningSecret.value, Some(OptionsFrom(body.userId, body.email, body.mid, body.eid)), nowMs)
      case Success(token) => Json(200, TokenIssued(token))
      case Failure(_) => Json(500, ErrorMessage(GenerationFailed))
  }

  // ----- properties -----

  /** In production the answer is 403, whatever the body and the secret. */
  lemma BlockedInProduction(env: Env, body: TestJwtBody, nowMs: int)
    requires IsProduction(env)
    ensures TestJwtResponse(env, body, nowMs) == Json(403, ErrorMessage(NotAvailable))
  {
  }

  /** Outside production, a body that does not parse fails before the secret
      is looked at, and a missing secret is reported before the body's fields
      are read. */
  lemma FailureOrder(env: Env, body: TestJwtBody, nowMs: int)
    requires !IsProduction(env)
    ensures body.Unparsable? ==> TestJwtResponse(env, body, nowMs) == Json(500, ErrorMessage(GenerationFailed))
    ensures !body.Unparsable? && !Truthy(env.jwtSigningSecret) ==>
              TestJwtResponse(env, body, nowMs) == Json(500, ErrorMessage(SecretMissing))
    ensures body.NullBody? && Truthy(env.jwtSigningSecret) ==>
              TestJwtResponse(env, body, nowMs) == Json(500, ErrorMessage(GenerationFailed))
  {
  }

  /** Missing, non-numeric or zero fields take the defaults; integers, as JSON
      numbers or as their decimal text, are used as given. */
  lemma OptionDefaults(n: int, email: string)
    ensures OptionsFrom(Undefined, None, Undefined, Undefined)
         == Jwt.TestJwtOptions(Some(12345), Some("test@example.com"), Some(100000001), Some(100000000), Some(3600))
    ensures OptionsFrom(Num(0), Some(""), Null, Bool(true))
         == Jwt.TestJwtOptions(Some(12345), Some("test@example.com"), Some(100000001), Some(100000000), Some(3600))
    ensures n != 0 && email != "" ==>
              OptionsFrom(Num(n), Some(email), Str(IntToString(n)), Num(n))
              == Jwt.TestJwtOptions(Some(n), Some(email), Some(n), Some(n), Some(3600))
  {
    ParseIntOfNonNumeric(Undefined);
    ParseIntOfNonNumeric(Null);
    ParseIntOfNonNumeric(Bool(true));
    ParseIntValueOfNumber(0);
    ParseIntValueOfNumber(n);
    ParseIntOfIntToString(n);
  }

  /** The numeric fields are read with `parseInt` and no radix, so text
      starting with `0x` or `0X` is hexadecimal, and a bare `0x` falls back
      to the default. */
  lemma HexOptions()
    ensures OptionsFrom(Str("0x1A"), None, Str("0x"), Str("-0X10"))
         == Jwt.TestJwtOptions(Some(26), Some("test@example.com"), Some(100000001), Some(-16), Some(3600))
  {
    HexPrefixRead();
  }

  /** A token is issued exactly outside production, for a parsed non-null
      body and a configured secret; it is an HS256 token signed with that
      secret, it verifies as a Marketing Cloud token for the next hour and is
      reported expired from then on. */
  lemma IssuedTokenVerifies(env: Env, body: TestJwtBody, nowMs: int, laterMs: int)
    ensures TestJwtResponse(env, body, nowMs).Json? && TestJwtResponse(env, body, nowMs).body.TokenIssued?
        <==> (!IsProduction(env) && body.Fields? && Truthy(env.jwtSigningSecret))
    ensures var r := TestJwtResponse(env, body, nowMs);
            r.Json? && r.body.TokenIssued? ==>
              (var t := r.body.token;
               var secret := env.jwtSigningSecret.value;
               && r.status == 200
               && t.Compact? && t.alg == "HS256" && t.signingKey == secret
               && (laterMs / 1000 < nowMs / 1000 + 3600 ==> Jwt.VerifyMarketingCloudJwt(t, secret, laterMs) == Success(t.claims))
               && (laterMs / 1000 >= nowMs / 1000 + 3600 ==>
                     Jwt.VerifyMarketingCloudJwt(t, secret, laterMs) == Failure(Jwt.ExpiredMessage)))
  {
    if !IsProduction(env) && body.Fields? && Truthy(env.jwtSigningSecret) {
      var secret := env.jwtSigningSecret.value;
      var options := Some(OptionsFrom(body.userId, body.email, body.mid, body.eid));
      Jwt.TestTokenShape(secret, options, nowMs);
      var t := Jwt.CreateTestJwt(secret, options, nowMs).value;
      assert TestJwtResponse(env, body, nowMs) == Json(200, TokenIssued(t));
      assert Jwt.TestPayload(options, nowMs).exp == nowMs / 1000 + 3600;
      Jwt.TestTokenRoundTrip(secret, options, nowMs, laterMs, secret + "x");
    }
  }
}
