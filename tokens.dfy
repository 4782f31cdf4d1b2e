/** The JWT side of app/core/security.py, on claims rather than on encoded
    tokens: the stamping done by `create_access_token` and
    `create_refresh_token`, `verify_token_type` and `verify_refresh_token`.
    Signing, encoding and decoding belong to the JWT library and are not
    modelled: a decode is represented by its outcome, `Some(claims)` or `None`
    for a `JWTError` (bad signature, expired, malformed). */
module Tokens {
  import opened Text
  import opened Models

  /** A claim value as it comes out of a decoded token. */
  datatype Claim = Str(str: string) | Num(num: int)

  type Payload = map<string, Claim>

  /** Python truthiness of a claim value. */
  predicate Truthy(c: Claim) {
    match c
    case Str(s) => s != ""
    case Num(n) => n != 0
  }

  /** `int(value)` of a claim value; None where Python raises. */
  function ClaimToInt(c: Claim): Option<int> {
    match c
    case Str(s) => ParseInt(s)
    case Num(n) => Some(n)
  }

  /** The `{"sub": str(user_id)}` dict the handlers pass in. */
  function SubjectClaims(userId: int): Payload {
    map["sub" := Str(IntToString(userId))]
  }

  /** The expiry chosen by the token factories: now plus `expires_delta` when it
      is truthy (a zero `timedelta` is not), else now plus the default. */
  function ExpiresAt(now: int, expiresDelta: Option<int>, defaultSeconds: int): (exp: int)
    ensures expiresDelta.Some? && expiresDelta.value != 0 ==> exp == now + expiresDelta.value
    ensures (expiresDelta.None? || expiresDelta.value == 0) ==> exp == now + defaultSeconds
  {
    if expiresDelta.Some? && expiresDelta.value != 0 then now + expiresDelta.value
    else now + defaultSeconds
  }

  /** `to_encode = data.copy(); to_encode.update({"exp", "iat", "type"})`: the
      caller's claims with the three stamped ones added, the stamped ones
      overriding any caller claim of the same name. */
  function StampClaims(data: Payload, exp: int, iat: int, tokenType: string): (p: Payload)
    ensures p.Keys == data.Keys + {"exp", "iat", "type"}
    ensures p["exp"] == Num(exp) && p["iat"] == Num(iat) && p["type"] == Str(tokenType)
    ensures forall k :: k in data && k != "exp" && k != "iat" && k != "type" ==> p[k] == data[k]
  {
    data + map["exp" := Num(exp), "iat" := Num(iat), "type" := Str(tokenType)]
  }

  /** The claims of `create_access_token(data, expires_delta)`. */
  function AccessClaims(data: Payload, now: int, expiresDelta: Option<int>, accessTokenExpireMinutes: int): Payload {
    StampClaims(data, ExpiresAt(now, expiresDelta, accessTokenExpireMinutes * 60), now, "access")
  }

  /** The claims of `create_refresh_token(data, expires_delta)`. */
  function RefreshClaims(data: Payload, now: int, expiresDelta: Option<int>, refreshTokenExpireDays: int): Payload {
    StampClaims(data, ExpiresAt(now, expiresDelta, refreshTokenExpireDays * 86400), now, "refresh")
  }

  datatype Outcome = Pass | Fail(error: HttpError)

  /** `verify_token_type`: raises 401 exactly when the `type` claim is missing
      or differs from the expected type. */
  function VerifyTokenType(payload: Payload, expectedType: string): (r: Outcome)
    ensures r.Fail? <==> !("type" in payload && payload["type"] == Str(expectedType))
    ensures r.Fail? ==> r.error == HttpError(401, "Invalid token type. Expected " + expectedType)
  {
    if "type" in payload && payload["type"] == Str(expectedType) then Pass
    else Fail(HttpError(401, "Invalid token type. Expected " + expectedType))
  }

  /** What `decode_token` raises on a `JWTError`. */
  const CouldNotValidateCredentials := HttpError(401, "Could not validate credentials")

  /** `verify_refresh_token`: the user id of a refresh token, or None on a
      decode failure, a wrong type, a missing or empty `sub`, or a `sub` that
      `int()` rejects (every exception is swallowed). */
  function VerifyRefreshToken(decoded: Option<Payload>): (r: Option<int>)
    ensures r.Some? ==> decoded.Some? && "type" in decoded.value && decoded.value["type"] == Str("refresh")
    ensures r.Some? ==> "sub" in decoded.value && Truthy(decoded.value["sub"])
    ensures r.Some? ==> ClaimToInt(decoded.value["sub"]) == r
    // and conversely: every valid refresh token with a truthy `sub` yields `int(sub)`
    ensures decoded.Some? && VerifyTokenType(decoded.value, "refresh").Pass?
            && "sub" in decoded.value && Truthy(decoded.value["sub"]) ==>
              r == ClaimToInt(decoded.value["sub"])
  {
    match decoded
    case None => None
    case Some(payload) =>
      if VerifyTokenType(payload, "refresh").Fail? then None
      else if "sub" !in payload || !Truthy(payload["sub"]) then None
      else ClaimToInt(payload["sub"])
  }

  /** Every token factory stamps its own type, whatever type the caller's
      claims carried: an access token never passes the refresh check and a
      refresh token never passes the access check. */
  lemma TokenTypesAreExclusive(data: Payload, now: int, expiresDelta: Option<int>, minutes: int, days: int)
    ensures VerifyTokenType(AccessClaims(data, now, expiresDelta, minutes), "access").Pass?
    ensures VerifyTokenType(AccessClaims(data, now, expiresDelta, minutes), "refresh").Fail?
    ensures VerifyTokenType(RefreshClaims(data, now, expiresDelta, days), "refresh").Pass?
    ensures VerifyTokenType(RefreshClaims(data, now, expiresDelta, days), "access").Fail?
  {
  }

  /** A refresh token issued for a user yields that user's id back. */
  lemma RefreshTokenRoundTrip(userId: int, now: int, expiresDelta: Option<int>, days: int)
    ensures VerifyRefreshToken(Some(RefreshClaims(SubjectClaims(userId), now, expiresDelta, days))) == Some(userId)
  {
    IntToStringRoundTrip(userId);
  }

  /** An access token is never accepted as a refresh token. */
  lemma AccessTokenIsNoRefreshToken(data: Payload, now: int, expiresDelta: Option<int>, minutes: int)
    ensures VerifyRefreshToken(Some(AccessClaims(data, now, expiresDelta, minutes))) == None
  {
  }
}
