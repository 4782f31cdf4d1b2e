/** The authentication dependencies of app/api/dependencies.py:
    `get_current_user`, an ordered chain of guards that either raises or
    returns the user named by an access token, and `get_current_active_user`.
    The token's decode is represented by its outcome (see Tokens) and the
    database read by a lookup in the users table. */
module Dependencies {
  import opened Text
  import opened Models
  import opened Tokens

  const MissingUserIdentifier := HttpError(401, "Invalid token: missing user identifier")
  const UserNotFound := HttpError(401, "User not found")
  const UserAccountDisabled := HttpError(403, "User account is disabled")

  /** `get_current_user`: decode (401), token type "access" (401), a truthy
      `sub` (401), `int(sub)` (a `ValueError` there is unhandled: 500), the
      user row (401), the user is active (403). */
  function GetCurrentUser(decoded: Option<Payload>, users: map<int, User>): (r: Result<User>)
    // a returned user is the active user the token's subject names
    ensures r.Success? ==> r.value.isActive
    ensures r.Success? ==>
              && decoded.Some? && "sub" in decoded.value
              && ClaimToInt(decoded.value["sub"]).Some?
              && ClaimToInt(decoded.value["sub"]).value in users
              && users[ClaimToInt(decoded.value["sub"]).value] == r.value
    ensures r.Success? ==> VerifyTokenType(decoded.value, "access").Pass?
    // the first two guards, in order
    ensures decoded.None? ==> r == Failure(CouldNotValidateCredentials)
    ensures decoded.Some? && VerifyTokenType(decoded.value, "access").Fail? ==>
              r == Failure(VerifyTokenType(decoded.value, "access").error)
    // 403 only for a user that exists and is disabled
    ensures r.Failure? && r.error.status == 403 ==>
              && r.error == UserAccountDisabled && decoded.Some? && "sub" in decoded.value
              && ClaimToInt(decoded.value["sub"]).Some?
              && ClaimToInt(decoded.value["sub"]).value in users
              && !users[ClaimToInt(decoded.value["sub"]).value].isActive
    ensures r.Failure? ==> r.error.status in {401, 403, 500}
  {
    match decoded
    case None => Failure(CouldNotValidateCredentials)
    case Some(payload) =>
      match VerifyTokenType(payload, "access")
      case Fail(e) => Failure(e)
      case Pass =>
        if "sub" !in payload || !Truthy(payload["sub"]) then Failure(MissingUserIdentifier)
        else
          match ClaimToInt(payload["sub"])
          case None => Failure(InternalServerError)
          case Some(id) =>
            if id !in users then Failure(UserNotFound)
            else if !users[id].isActive then Failure(UserAccountDisabled)
            else Success(users[id])
  }

  /** `get_current_active_user`: 403 for a disabled user. */
  function GetCurrentActiveUser(currentUser: User): (r: Result<User>)
    ensures r.Success? <==> currentUser.isActive
    ensures r.Success? ==> r.value == currentUser
    ensures r.Failure? ==> r.error == HttpError(403, "Inactive user")
  {
    if !currentUser.isActive then Failure(HttpError(403, "Inactive user")) else Success(currentUser)
  }

  /** A token that is not an access token is refused before the users table is
      read: the answer is the same whatever the table holds. */
  lemma WrongTypeRefusedBeforeLookup(payload: Payload, users1: map<int, User>, users2: map<int, User>)
    requires VerifyTokenType(payload, "access").Fail?
    ensures GetCurrentUser(Some(payload), users1) == GetCurrentUser(Some(payload), users2)
    ensures GetCurrentUser(Some(payload), users1).Failure?
    ensures GetCurrentUser(Some(payload), users1).error.status == 401
  {
  }

  /** An access token without a (truthy) `sub` is a 401, whatever the table. */
  lemma MissingSubjectIs401(payload: Payload, users: map<int, User>)
    requires VerifyTokenType(payload, "access").Pass?
    requires "sub" !in payload || !Truthy(payload["sub"])
    ensures GetCurrentUser(Some(payload), users) == Failure(MissingUserIdentifier)
  {
  }

  /** For an access token naming user id `id`: no such user is a 401, a
      disabled user is a 403 (not a 401), an active one is returned. */
  lemma SubjectLookup(payload: Payload, users: map<int, User>, id: int)
    requires VerifyTokenType(payload, "access").Pass?
    requires "sub" in payload && Truthy(payload["sub"]) && ClaimToInt(payload["sub"]) == Some(id)
    ensures id !in users ==> GetCurrentUser(Some(payload), users) == Failure(UserNotFound)
    ensures id in users && !users[id].isActive ==> GetCurrentUser(Some(payload), users) == Failure(UserAccountDisabled)
    ensures id in users && users[id].isActive ==> GetCurrentUser(Some(payload), users) == Success(users[id])
  {
  }

  /** The check in `get_current_active_user` never fires after
      `get_current_user`: the user it receives is already active. */
  lemma ActiveCheckIsRedundant(decoded: Option<Payload>, users: map<int, User>)
    requires GetCurrentUser(decoded, users).Success?
    ensures GetCurrentActiveUser(GetCurrentUser(decoded, users).value) == GetCurrentUser(decoded, users)
  {
  }

  /** An access token issued for an active user authenticates that user. */
  lemma IssuedAccessTokenAuthenticates(userId: int, users: map<int, User>, now: int, expiresDelta: Option<int>, minutes: int)
    requires userId in users && users[userId].isActive
    ensures GetCurrentUser(Some(AccessClaims(SubjectClaims(userId), now, expiresDelta, minutes)), users) == Success(users[userId])
  {
    IntToStringRoundTrip(userId);
  }

  /** A refresh token is never accepted where an access token is required. */
  lemma RefreshTokenNeverAuthenticates(data: Payload, users: map<int, User>, now: int, expiresDelta: Option<int>, days: int)
    ensures GetCurrentUser(Some(RefreshClaims(data, now, expiresDelta, days)), users)
            == Failure(HttpError(401, "Invalid token type. Expected access"))
  {
  }
}
