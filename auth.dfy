/** The decision logic of the authentication endpoints in
    app/api/v1/endpoints/auth.py: signup, login, refresh, logout and the Google
    OAuth callback, with their helpers `create_user_with_subscription`,
    `get_user_by_email` and `create_user_session`.

    The database is three tables held as maps from primary key to row, with the
    next autoincrement value of each. Every handler checks its guards in the
    source's order; a handler that raises leaves the tables as they were. The
    cryptography is opaque: bcrypt, the JWT codec and SHA-256 are parameters of
    the service (`Crypto`), so the model says which function is applied to
    what, never what the functions compute. */
module Auth {
  import opened Text
  import opened Models
  import opened Tokens
  import opened RateLimit

  /** The foreign functions the handlers call. */
  datatype Crypto = Crypto(
    hashPassword: string -> string,               // get_password_hash (bcrypt)
    verifyPassword: (string, string) -> bool,     // verify_password(plain, hashed)
    encodeJwt: Payload -> string,                 // jwt.encode with SECRET_KEY
    decodeJwt: (string, int) -> Option<Payload>,  // jwt.decode at a time; None on JWTError
    hashToken: string -> string)                  // hash_token: SHA-256 hex digest

  /** The settings the handlers read. */
  datatype AuthSettings = AuthSettings(
    accessTokenExpireMinutes: int,
    refreshTokenExpireDays: int,
    googleClientId: Option<string>,
    googleClientSecret: Option<string>)

  /** The `user` dict of a token response. */
  datatype UserView = UserView(id: int, email: string, firstName: Option<string>, lastName: Option<string>, isVerified: bool)

  datatype TokenResponse = TokenResponse(accessToken: string, refreshToken: string, tokenType: string, user: UserView)

  /** What Google's token exchange yields: the `userinfo` claims, if any. */
  datatype GoogleProfile = GoogleProfile(email: Option<string>, givenName: Option<string>, familyName: Option<string>)

  /** What the Google callback answers: the 501 it raises before its `try`, or
      one of its two redirects (to the login page with an error, or to the
      frontend with both tokens). */
  datatype GoogleOutcome =
    | NotConfigured(error: HttpError)
    | ErrorRedirect
    | TokensRedirect(accessToken: string, refreshToken: string)

  function ViewOf(u: User): UserView {
    UserView(u.id, u.email, u.firstName, u.lastName, u.isVerified)
  }

  /** `request.client.host if request.client else "unknown"` */
  function ClientKey(client: Option<string>): string {
    if client.Some? then client.value else "unknown"
  }

  /** Python's rendering of `rate_info['reset']` inside an f-string. */
  function ResetText(reset: Option<int>): string {
    if reset.Some? then IntToString(reset.value) else "None"
  }

  // ---------------------------------------------------------------------------
  // Rate-limit keys
  // ---------------------------------------------------------------------------

  /** Which key the handlers pass to `check_rate_limit`. As written, every
      endpoint passes the client address alone (`SharedByAddress`), so all of
      them count on one counter per address. `PerEndpoint` scopes the address
      by the endpoint, so that each endpoint's limit counts its own calls. */
  datatype RateKeys = SharedByAddress | PerEndpoint

  /** The key a handler passes to `check_rate_limit`. */
  function RateLimitKey(keys: RateKeys, endpoint: string, clientIp: string): string {
    match keys
    case SharedByAddress => clientIp
    case PerEndpoint => endpoint + ":" + clientIp
  }

  /** `signup`'s limiter call: 5 per hour. */
  function SignupLimit(entries: map<string, Entry>, keys: RateKeys, client: Option<string>): StepResult {
    Step(entries, RedisKey("ip", RateLimitKey(keys, "signup", ClientKey(client))), 5, 3600)
  }

  /** `login`'s limiter call: 10 per 15 minutes. */
  function LoginLimit(entries: map<string, Entry>, keys: RateKeys, client: Option<string>): StepResult {
    Step(entries, RedisKey("ip", RateLimitKey(keys, "login", ClientKey(client))), 10, 900)
  }

  /** `refresh_token`'s limiter call: 20 per hour. */
  function RefreshLimit(entries: map<string, Entry>, keys: RateKeys, client: Option<string>): StepResult {
    Step(entries, RedisKey("ip", RateLimitKey(keys, "refresh", ClientKey(client))), 20, 3600)
  }

  /** With endpoint-scoped keys, the endpoints' counters are distinct. */
  lemma {:induction false} RateLimitKeysDistinct(e1: string, a: string, e2: string, b: string)
    requires ':' !in e1 && ':' !in e2 && (e1, a) != (e2, b)
    ensures RedisKey("ip", RateLimitKey(PerEndpoint, e1, a)) != RedisKey("ip", RateLimitKey(PerEndpoint, e2, b))
  {
    var k1, k2 := RateLimitKey(PerEndpoint, e1, a), RateLimitKey(PerEndpoint, e2, b);
    if RedisKey("ip", k1) == RedisKey("ip", k2) {
      RedisKeyInjectiveInKey("ip", k1, k2);
      assert RedisKey(e1, a) == "rate_limit:" + k1;
      assert RedisKey(e2, b) == "rate_limit:" + k2;
      RedisKeyInjective(e1, a, e2, b);
      assert false;
    }
  }

  /** With endpoint-scoped keys, any number of login calls leaves the signup
      decision exactly as it was. */
  lemma LoginsDoNotAffectSignup(entries: map<string, Entry>, ip: string, n: nat)
    ensures SignupLimit(Calls(entries, RedisKey("ip", RateLimitKey(PerEndpoint, "login", ip)), 10, 900, n).store, PerEndpoint, Some(ip)).info
            == SignupLimit(entries, PerEndpoint, Some(ip)).info
  {
    RateLimitKeysDistinct("login", ip, "signup", ip);
    CallsFrame(entries, RedisKey("ip", RateLimitKey(PerEndpoint, "login", ip)), 10, 900, n,
               RedisKey("ip", RateLimitKey(PerEndpoint, "signup", ip)));
  }

  /** Calls on one counter leave every other counter as it was. */
  lemma {:induction false} CallsFrame(s: map<string, Entry>, k: string, requests: int, window: int, n: nat, j: string)
    requires window > 0 && j != k
    ensures var t := Calls(s, k, requests, window, n).store;
      (j in t <==> j in s) && (j in s ==> t[j] == s[j])
  {
    if n > 0 {
      CallsFrame(s, k, requests, window, n - 1, j);
    }
  }

  // ---------------------------------------------------------------------------
  // Table queries
  // ---------------------------------------------------------------------------

  predicate EmailTaken(users: map<int, User>, email: string) {
    exists id :: id in users && users[id].email == email
  }

  /** The id of the user with an email, when emails are unique. */
  ghost function UserIdWithEmail(users: map<int, User>, email: string): (id: int)
    requires EmailTaken(users, email)
    ensures id in users && users[id].email == email
  {
    var id :| id in users && users[id].email == email; id
  }

  function SubscriptionsOf(subscriptions: map<int, Subscription>, userId: int): set<int> {
    set s | s in subscriptions && subscriptions[s].userId == userId
  }

  /** The sessions whose stored hash is `h` (logout's query). */
  function SessionsWithHash(sessions: map<int, Session>, h: string): set<int> {
    set s | s in sessions && sessions[s].refreshTokenHash == h
  }

  /** The sessions whose stored hash is `h` and that expire after `now`
      (refresh's query). */
  function LiveSessionsWithHash(sessions: map<int, Session>, h: string, now: int): set<int> {
    set s | s in sessions && sessions[s].refreshTokenHash == h && sessions[s].expiresAt > now
  }

  lemma SubscriptionsOfAdd(subscriptions: map<int, Subscription>, s: int, sub: Subscription, userId: int)
    requires s !in subscriptions
    ensures SubscriptionsOf(subscriptions[s := sub], userId)
            == SubscriptionsOf(subscriptions, userId) + (if sub.userId == userId then {s} else {})
  {
  }

  // ---------------------------------------------------------------------------
  // The service
  // ---------------------------------------------------------------------------

  class AuthService {
    var users: map<int, User>
    var subscriptions: map<int, Subscription>
    var sessions: map<int, Session>
    var nextUserId: int
    var nextSubscriptionId: int
    var nextSessionId: int

    const redis: RedisStore
    const rateKeys: RateKeys
    const crypto: Crypto
    const settings: AuthSettings

    /** Keys below the autoincrement counters, unique emails, every
        subscription and session belonging to a user, and exactly one
        subscription per user. */
    ghost predicate Valid()
      reads this
    {
      && nextUserId >= 1 && nextSubscriptionId >= 1 && nextSessionId >= 1
      && (forall id :: id in users ==> 1 <= id < nextUserId && users[id].id == id)
      && (forall a, b :: a in users && b in users && users[a].email == users[b].email ==> a == b)
      && (forall s :: s in subscriptions ==> 1 <= s < nextSubscriptionId && subscriptions[s].userId in users)
      && (forall id {:trigger SubscriptionsOf(subscriptions, id)} :: id in users ==> |SubscriptionsOf(subscriptions, id)| == 1)
      && (forall s :: s in sessions ==> 1 <= s < nextSessionId && sessions[s].userId in users)
    }

    constructor (redis: RedisStore, rateKeys: RateKeys, crypto: Crypto, settings: AuthSettings)
      ensures Valid()
      ensures users == map[] && subscriptions == map[] && sessions == map[]
      ensures this.redis == redis && this.rateKeys == rateKeys && this.crypto == crypto && this.settings == settings
    {
      users, subscriptions, sessions := map[], map[], map[];
      nextUserId, nextSubscriptionId, nextSessionId := 1, 1, 1;
      this.redis, this.rateKeys, this.crypto, this.settings := redis, rateKeys, crypto, settings;
    }

    /** `create_access_token({"sub": str(user_id)})` */
    function AccessTokenFor(userId: int, now: int): string {
      crypto.encodeJwt(AccessClaims(SubjectClaims(userId), now, None, settings.accessTokenExpireMinutes))
    }

    /** `create_refresh_token({"sub": str(user_id)})` */
    function RefreshTokenFor(userId: int, now: int): string {
      crypto.encodeJwt(RefreshClaims(SubjectClaims(userId), now, None, settings.refreshTokenExpireDays))
    }

    /** The session row `create_user_session` stores for a refresh token. */
    function SessionFor(userId: int, refreshToken: string, deviceInfo: Option<string>, ipAddress: Option<string>, now: int): Session {
      Session(userId, crypto.hashToken(refreshToken), deviceInfo, ipAddress, now + settings.refreshTokenExpireDays * 86400)
    }

    /** `get_user_by_email` */
    method GetUserByEmail(email: string) returns (u: Option<User>)
      requires Valid()
      ensures u.Some? <==> EmailTaken(users, email)
      ensures u.Some? ==> u.value.id == UserIdWithEmail(users, email) && u.value == users[u.value.id]
    {
      if EmailTaken(users, email) {
        var id :| id in users && users[id].email == email;
        u := Some(users[id]);
      } else {
        u := None;
      }
    }

    /** `create_user_with_subscription`: a new active user with the next id and
        one FREE, ACTIVE subscription for it. Both callers have checked that
        the email is not registered. */
    method CreateUserWithSubscription(email: string, hashedPassword: string, firstName: Option<string>,
                                      lastName: Option<string>, isVerified: bool) returns (user: User)
      requires Valid() && !EmailTaken(users, email)
      modifies this
      ensures Valid()
      ensures user == User(old(nextUserId), email, hashedPassword, firstName, lastName, isVerified, true, None)
      ensures user.id !in old(users) && users == old(users)[user.id := user]
      ensures subscriptions == old(subscriptions)[old(nextSubscriptionId) := Subscription(user.id, Free, Active)]
      ensures SubscriptionsOf(subscriptions, user.id) == {old(nextSubscriptionId)}
      ensures sessions == old(sessions) && nextSessionId == old(nextSessionId)
      ensures nextUserId == old(nextUserId) + 1 && nextSubscriptionId == old(nextSubscriptionId) + 1
    {
      user := User(nextUserId, email, hashedPassword, firstName, lastName, isVerified, true, None);
      var oldSubscriptions := subscriptions;
      assert forall s :: s in oldSubscriptions ==> oldSubscriptions[s].userId != user.id;
      var sid := nextSubscriptionId;
      users := users[user.id := user];
      nextUserId := nextUserId + 1;
      subscriptions := subscriptions[sid := Subscription(user.id, Free, Active)];
      nextSubscriptionId := nextSubscriptionId + 1;
      forall id | id in users
        ensures SubscriptionsOf(subscriptions, id)
                == SubscriptionsOf(oldSubscriptions, id) + (if id == user.id then {sid} else {})
      {
        SubscriptionsOfAdd(oldSubscriptions, sid, Subscription(user.id, Free, Active), id);
      }
      assert SubscriptionsOf(oldSubscriptions, user.id) == {};
    }

    /** `create_user_session`: a refresh token for the user and a session row
        holding only its hash, expiring `REFRESH_TOKEN_EXPIRE_DAYS` from now. */
    method CreateUserSession(userId: int, deviceInfo: Option<string>, ipAddress: Option<string>, now: int)
      returns (refreshToken: string)
      requires Valid() && userId in users
      modifies this
      ensures Valid()
      ensures refreshToken == RefreshTokenFor(userId, now)
      ensures old(nextSessionId) !in old(sessions)
      ensures sessions == old(sessions)[old(nextSessionId) := SessionFor(userId, refreshToken, deviceInfo, ipAddress, now)]
      ensures nextSessionId == old(nextSessionId) + 1
      ensures users == old(users) && subscriptions == old(subscriptions)
      ensures nextUserId == old(nextUserId) && nextSubscriptionId == old(nextSubscriptionId)
    {
      refreshToken := RefreshTokenFor(userId, now);
      var tokenHash := crypto.hashToken(refreshToken);
      sessions := sessions[nextSessionId := Session(userId, tokenHash, deviceInfo, ipAddress,
                                                    now + settings.refreshTokenExpireDays * 86400)];
      nextSessionId := nextSessionId + 1;
    }

    /** `user.last_login = now` and the commit that follows it. */
    method RecordLastLogin(userId: int, now: int)
      requires Valid() && userId in users
      modifies this
      ensures Valid()
      ensures users == old(users)[userId := old(users)[userId].(lastLogin := Some(now))]
      ensures sessions == old(sessions) && subscriptions == old(subscriptions)
      ensures nextUserId == old(nextUserId) && nextSubscriptionId == old(nextSubscriptionId)
      ensures nextSessionId == old(nextSessionId)
    {
      users := users[userId := users[userId].(lastLogin := Some(now))];
    }

    /** `POST /signup`: rate limit (5 per hour per address, 429), email not yet
        registered (400), then an unverified user with a FREE subscription and
        a session. */
    method Signup(email: string, password: string, firstName: Option<string>, lastName: Option<string>,
                  client: Option<string>, userAgent: Option<string>, now: int)
      returns (r: Result<TokenResponse>)
      requires Valid()
      modifies this, redis
      ensures Valid()
      ensures redis.entries == SignupLimit(old(redis.entries), rateKeys, client).store
      ensures var limit := SignupLimit(old(redis.entries), rateKeys, client).info;
        !limit.allowed ==>
          r == Failure(HttpError(429, "Too many signup attempts. Try again in " + ResetText(limit.reset) + " seconds"))
      ensures SignupLimit(old(redis.entries), rateKeys, client).info.allowed && EmailTaken(old(users), email) ==>
          r == Failure(HttpError(400, "Email already registered"))
      ensures r.Failure? ==> unchanged(this)
      ensures r.Success? <==> SignupLimit(old(redis.entries), rateKeys, client).info.allowed && !EmailTaken(old(users), email)
      ensures r.Success? ==>
        var id := old(nextUserId);
        var user := User(id, email, crypto.hashPassword(password), firstName, lastName, false, true, None);
        && id !in old(users)
        && users == old(users)[id := user]
        && subscriptions == old(subscriptions)[old(nextSubscriptionId) := Subscription(id, Free, Active)]
        && SubscriptionsOf(subscriptions, id) == {old(nextSubscriptionId)}
        && sessions == old(sessions)[old(nextSessionId) := SessionFor(id, RefreshTokenFor(id, now), userAgent, client, now)]
        && r.value == TokenResponse(AccessTokenFor(id, now), RefreshTokenFor(id, now), "bearer", ViewOf(user))
    {
      var limiter := GetRateLimiter(5, 3600);
      var info := limiter.CheckRateLimit(redis, RateLimitKey(rateKeys, "signup", ClientKey(client)));
      if !info.allowed {
        return Failure(HttpError(429, "Too many signup attempts. Try again in " + ResetText(info.reset) + " seconds"));
      }
      var existing := GetUserByEmail(email);
      if existing.Some? {
        return Failure(HttpError(400, "Email already registered"));
      }
      var hashedPassword := crypto.hashPassword(password);
      var user := CreateUserWithSubscription(email, hashedPassword, firstName, lastName, false);
      var accessToken := AccessTokenFor(user.id, now);
      var refreshToken := CreateUserSession(user.id, userAgent, client, now);
      r := Success(TokenResponse(accessToken, refreshToken, "bearer", ViewOf(user)));
    }

    /** `POST /login`: rate limit (10 per 15 minutes per address, 429), unknown
        email (401), wrong password (401, same text), disabled account (403);
        only then is `last_login` set and a session created. */
    method Login(email: string, password: string, client: Option<string>, userAgent: Option<string>, now: int)
      returns (r: Result<TokenResponse>)
      requires Valid()
      modifies this, redis
      ensures Valid()
      ensures redis.entries == LoginLimit(old(redis.entries), rateKeys, client).store
      ensures var limit := LoginLimit(old(redis.entries), rateKeys, client).info;
        !limit.allowed ==>
          r == Failure(HttpError(429, "Too many login attempts. Try again in " + ResetText(limit.reset) + " seconds"))
      ensures LoginLimit(old(redis.entries), rateKeys, client).info.allowed && !EmailTaken(old(users), email) ==>
          r == Failure(HttpError(401, "Invalid email or password"))
      ensures LoginLimit(old(redis.entries), rateKeys, client).info.allowed && EmailTaken(old(users), email) ==>
        var user := old(users)[UserIdWithEmail(old(users), email)];
        && (!crypto.verifyPassword(password, user.hashedPassword) ==>
              r == Failure(HttpError(401, "Invalid email or password")))
        && (crypto.verifyPassword(password, user.hashedPassword) && !user.isActive ==>
              r == Failure(HttpError(403, "Account is disabled")))
        && (crypto.verifyPassword(password, user.hashedPassword) && user.isActive ==>
              && r.Success?
              && users == old(users)[user.id := user.(lastLogin := Some(now))]
              && subscriptions == old(subscriptions)
              && sessions == old(sessions)[old(nextSessionId) := SessionFor(user.id, RefreshTokenFor(user.id, now), userAgent, client, now)]
              && r.value == TokenResponse(AccessTokenFor(user.id, now), RefreshTokenFor(user.id, now), "bearer", ViewOf(user)))
      ensures r.Failure? ==> unchanged(this)
      // the same success case, by the user it logs in
      ensures r.Success? ==>
        && EmailTaken(old(users), email) && r.value.user.id == UserIdWithEmail(old(users), email)
        && r.value.refreshToken == RefreshTokenFor(r.value.user.id, now)
        && old(nextSessionId) !in old(sessions) && nextSessionId == old(nextSessionId) + 1
        && sessions == old(sessions)[old(nextSessionId) := SessionFor(r.value.user.id, r.value.refreshToken, userAgent, client, now)]
        && r.value.user.id in users && users[r.value.user.id].isActive && users[r.value.user.id].email == email
    {
      var limiter := GetRateLimiter(10, 900);
      var info := limiter.CheckRateLimit(redis, RateLimitKey(rateKeys, "login", ClientKey(client)));
      if !info.allowed {
        return Failure(HttpError(429, "Too many login attempts. Try again in " + ResetText(info.reset) + " seconds"));
      }
      var found := GetUserByEmail(email);
      if found.None? {
        return Failure(HttpError(401, "Invalid email or password"));
      }
      var user := found.value;
      if !crypto.verifyPassword(password, user.hashedPassword) {
        return Failure(HttpError(401, "Invalid email or password"));
      }
      if !user.isActive {
        return Failure(HttpError(403, "Account is disabled"));
      }
      RecordLastLogin(user.id, now);
      var accessToken := AccessTokenFor(user.id, now);
      var refreshToken := CreateUserSession(user.id, userAgent, client, now);
      r := Success(TokenResponse(accessToken, refreshToken, "bearer", ViewOf(user)));
    }

    /** `POST /refresh`: rate limit (20 per hour per address, 429), a refresh
        token naming a (non-zero) user id (401), exactly one unexpired session
        with the token's hash (none: 401; several: the query raises, 500), an
        active user (401). Answers a new access token and the same refresh
        token; no table changes. */
    method RefreshToken(refreshToken: string, client: Option<string>, now: int)
      returns (r: Result<TokenResponse>)
      requires Valid()
      modifies redis
      ensures redis.entries == RefreshLimit(old(redis.entries), rateKeys, client).store
      ensures var limit := RefreshLimit(old(redis.entries), rateKeys, client).info;
        !limit.allowed ==>
          r == Failure(HttpError(429, "Too many refresh attempts. Try again in " + ResetText(limit.reset) + " seconds"))
      ensures var userId := VerifyRefreshToken(crypto.decodeJwt(refreshToken, now));
        var live := LiveSessionsWithHash(sessions, crypto.hashToken(refreshToken), now);
        RefreshLimit(old(redis.entries), rateKeys, client).info.allowed ==>
          && (userId.None? || userId.value == 0 ==> r == Failure(HttpError(401, "Invalid refresh token")))
          && (userId.Some? && userId.value != 0 ==>
                && (|live| == 0 ==> r == Failure(HttpError(401, "Session expired or invalid")))
                && (|live| > 1 ==> r == Failure(InternalServerError))
                && (|live| == 1 && (userId.value !in users || !users[userId.value].isActive) ==>
                      r == Failure(HttpError(401, "User not found or inactive")))
                && (|live| == 1 && userId.value in users && users[userId.value].isActive ==>
                      r == Success(TokenResponse(AccessTokenFor(userId.value, now), refreshToken, "bearer",
                                                 ViewOf(users[userId.value])))))
      // the refresh succeeds only for a live refresh token of an active user
      ensures r.Success? ==>
        && r.value.refreshToken == refreshToken
        && VerifyRefreshToken(crypto.decodeJwt(refreshToken, now)).Some?
        && |LiveSessionsWithHash(sessions, crypto.hashToken(refreshToken), now)| == 1
        && r.value.user.id in users && users[r.value.user.id].isActive
    {
      var limiter := GetRateLimiter(20, 3600);
      var info := limiter.CheckRateLimit(redis, RateLimitKey(rateKeys, "refresh", ClientKey(client)));
      if !info.allowed {
        return Failure(HttpError(429, "Too many refresh attempts. Try again in " + ResetText(info.reset) + " seconds"));
      }
      var userId := VerifyRefreshToken(crypto.decodeJwt(refreshToken, now));
      if userId.None? || userId.value == 0 {
        return Failure(HttpError(401, "Invalid refresh token"));
      }
      var live := LiveSessionsWithHash(sessions, crypto.hashToken(refreshToken), now);
      if |live| == 0 {
        return Failure(HttpError(401, "Session expired or invalid"));
      }
      if |live| > 1 {
        return Failure(InternalServerError);
      }
      if userId.value !in users || !users[userId.value].isActive {
        return Failure(HttpError(401, "User not found or inactive"));
      }
      var user := users[userId.value];
      var accessToken := AccessTokenFor(user.id, now);
      r := Success(TokenResponse(accessToken, refreshToken, "bearer", ViewOf(user)));
    }

    /** `POST /logout`: deletes the session holding the token's hash, if there
        is one, and reports success either way (several matching sessions make
        the query raise: 500). */
    method Logout(refreshToken: string) returns (r: Result<string>)
      requires Valid()
      modifies this
      ensures Valid()
      ensures var matching := SessionsWithHash(old(sessions), crypto.hashToken(refreshToken));
        && (|matching| > 1 ==> r == Failure(InternalServerError) && unchanged(this))
        && (|matching| <= 1 ==> r == Success("Logged out successfully") && sessions == old(sessions) - matching)
      ensures r.Success? ==> SessionsWithHash(sessions, crypto.hashToken(refreshToken)) == {}
      ensures users == old(users) && subscriptions == old(subscriptions)
      ensures nextUserId == old(nextUserId) && nextSubscriptionId == old(nextSubscriptionId)
      ensures nextSessionId == old(nextSessionId)
    {
      var tokenHash := crypto.hashToken(refreshToken);
      var matching := SessionsWithHash(sessions, tokenHash);
      if |matching| > 1 {
        return Failure(InternalServerError);
      }
      // at most the one session the query found
      sessions := sessions - matching;
      r := Success("Logged out successfully");
    }

    /** `GET /google/callback`, after the OAuth exchange: 501 when Google is not
        configured; inside the `try`, a failed exchange, a missing userinfo or
        a missing email all end in the error redirect (the 400s raised there
        are caught by the `except Exception`); otherwise the existing user gets
        `last_login` set, or a verified user is created with an unusable random
        password, and the tokens are sent to the frontend. There is no
        `is_active` check on this path. */
    method GoogleCallback(exchange: Option<Option<GoogleProfile>>, randomPassword: string,
                          client: Option<string>, userAgent: Option<string>, now: int)
      returns (r: GoogleOutcome)
      requires Valid()
      modifies this
      ensures Valid()
      ensures !Present(settings.googleClientId) || !Present(settings.googleClientSecret) ==>
        r == NotConfigured(HttpError(501, "Google OAuth is not configured")) && unchanged(this)
      ensures Present(settings.googleClientId) && Present(settings.googleClientSecret)
              && (exchange.None? || exchange.value.None? || !Present(exchange.value.value.email)) ==>
        r == ErrorRedirect && unchanged(this)
      ensures r.TokensRedirect? ==>
        && exchange.Some? && exchange.value.Some? && Present(exchange.value.value.email)
        && var profile := exchange.value.value;
           var email := profile.email.value;
           var id := if EmailTaken(old(users), email) then UserIdWithEmail(old(users), email) else old(nextUserId);
           && (EmailTaken(old(users), email) ==>
                 && users == old(users)[id := old(users)[id].(lastLogin := Some(now))]
                 && subscriptions == old(subscriptions))
           && (!EmailTaken(old(users), email) ==>
                 && users == old(users)[id := User(id, email, crypto.hashPassword(randomPassword),
                                                   profile.givenName, profile.familyName, true, true, None)]
                 && subscriptions == old(subscriptions)[old(nextSubscriptionId) := Subscription(id, Free, Active)])
           && sessions == old(sessions)[old(nextSessionId) := SessionFor(id, RefreshTokenFor(id, now), userAgent, client, now)]
           && r == TokensRedirect(AccessTokenFor(id, now), RefreshTokenFor(id, now))
      ensures (Present(settings.googleClientId) && Present(settings.googleClientSecret)
               && exchange.Some? && exchange.value.Some? && Present(exchange.value.value.email)) ==> r.TokensRedirect?
    {
      if !Present(settings.googleClientId) || !Present(settings.googleClientSecret) {
        return NotConfigured(HttpError(501, "Google OAuth is not configured"));
      }
      if exchange.None? || exchange.value.None? {
        return ErrorRedirect;
      }
      var profile := exchange.value.value;
      if !Present(profile.email) {
        return ErrorRedirect;
      }
      var email := profile.email.value;
      var found := GetUserByEmail(email);
      var user: User;
      if found.None? {
        var hashedPassword := crypto.hashPassword(randomPassword);
        user := CreateUserWithSubscription(email, hashedPassword, profile.givenName, profile.familyName, true);
      } else {
        user := found.value;
        users := users[user.id := user.(lastLogin := Some(now))];
      }
      var accessToken := AccessTokenFor(user.id, now);
      var refreshToken := CreateUserSession(user.id, userAgent, client, now);
      r := TokensRedirect(accessToken, refreshToken);
    }
  }

  /** A second logout with the same token finds nothing to delete and answers
      success again. */
  method LogoutTwice(service: AuthService, refreshToken: string) returns (first: Result<string>, second: Result<string>)
    requires service.Valid()
    modifies service
    ensures first.Success? ==> second == first && service.sessions == old(service.sessions) - SessionsWithHash(old(service.sessions), service.crypto.hashToken(refreshToken))
  {
    first := service.Logout(refreshToken);
    ghost var afterFirst := service.sessions;
    second := service.Logout(refreshToken);
    if first.Success? {
      assert SessionsWithHash(afterFirst, service.crypto.hashToken(refreshToken)) == {};
      assert service.sessions == afterFirst - {};
      assert afterFirst - {} == afterFirst;
    }
  }

  /** Two logins of one user within the same second are issued the same
      refresh token (its claims are `sub`, `exp` and `iat` only, at a one-second
      resolution), so two sessions hold the same hash and a refresh with that
      token makes the session query raise: 500. The JWT codec is required to
      decode what it encoded. */
  method SameSecondLogins(service: AuthService, email: string, password: string, client: Option<string>,
                          userAgent: Option<string>, now: int)
    returns (first: Result<TokenResponse>, second: Result<TokenResponse>, refresh: Option<Result<TokenResponse>>)
    requires service.Valid() && service.settings.refreshTokenExpireDays > 0
    requires forall p :: service.crypto.decodeJwt(service.crypto.encodeJwt(p), now) == Some(p)
    modifies service, service.redis
    ensures refresh.Some? <==> first.Success? && second.Success?
    ensures refresh.Some? ==> first.value.refreshToken == second.value.refreshToken
    ensures refresh.Some? ==> refresh.value.Failure? && refresh.value.error.status in {429, 500}
  {
    first, second := TwoLogins(service, email, password, client, userAgent, now);
    if !(first.Success? && second.Success?) {
      return first, second, None;
    }
    var token := second.value.refreshToken;
    ghost var id := first.value.user.id;
    RefreshTokenRoundTrip(id, now, None, service.settings.refreshTokenExpireDays);
    assert VerifyRefreshToken(service.crypto.decodeJwt(token, now)) == Some(id);
    var r := service.RefreshToken(token, client, now);
    refresh := Some(r);
  }

  /** The two logins of `SameSecondLogins`: when both succeed, they store two
      live sessions with the hash of one refresh token. */
  method TwoLogins(service: AuthService, email: string, password: string, client: Option<string>,
                   userAgent: Option<string>, now: int)
    returns (first: Result<TokenResponse>, second: Result<TokenResponse>)
    requires service.Valid() && service.settings.refreshTokenExpireDays > 0
    modifies service, service.redis
    ensures service.Valid()
    ensures first.Success? && second.Success? ==>
      && first.value.refreshToken == second.value.refreshToken
      && first.value.refreshToken == service.RefreshTokenFor(first.value.user.id, now)
      && first.value.user.id != 0
      && |LiveSessionsWithHash(service.sessions, service.crypto.hashToken(first.value.refreshToken), now)| > 1
  {
    ghost var s0 := service.nextSessionId;
    first := SuccessfulLogin(service, email, password, client, userAgent, now);
    ghost var sessions1 := service.sessions;
    ghost var users1 := service.users;
    second := SuccessfulLogin(service, email, password, client, userAgent, now);
    if first.Success? && second.Success? {
      ghost var id := first.value.user.id;
      assert second.value.user.id == id;
      ghost var session := service.SessionFor(id, first.value.refreshToken, userAgent, client, now);
      TwoLiveSessions(service.sessions, s0, s0 + 1, session.refreshTokenHash, now);
    }
  }

  /** `Login`, seen only through what a successful login does. */
  method SuccessfulLogin(service: AuthService, email: string, password: string, client: Option<string>,
                         userAgent: Option<string>, now: int)
    returns (r: Result<TokenResponse>)
    requires service.Valid()
    modifies service, service.redis
    ensures service.Valid()
    ensures r.Success? ==>
      && EmailTaken(old(service.users), email)
      && r.value.user.id == UserIdWithEmail(old(service.users), email)
      && r.value.user.id != 0
      && (forall b :: b in service.users && service.users[b].email == email ==> b == r.value.user.id)
      && r.value.refreshToken == service.RefreshTokenFor(r.value.user.id, now)
      && old(service.nextSessionId) !in old(service.sessions)
      && service.nextSessionId == old(service.nextSessionId) + 1
      && service.sessions == old(service.sessions)[old(service.nextSessionId) :=
           service.SessionFor(r.value.user.id, r.value.refreshToken, userAgent, client, now)]
  {
    r := service.Login(email, password, client, userAgent, now);
  }

  /** As written, five login attempts from one address use up that address's
      signup allowance: none of the logins is refused, and the signup that
      follows is refused with 429 although no signup was made. */
  method SharedCounterAsWritten(service: AuthService, email: string, password: string, client: Option<string>,
                                userAgent: Option<string>, now: int)
    returns (logins: seq<Result<TokenResponse>>, signup: Result<TokenResponse>)
    requires service.Valid() && service.rateKeys == SharedByAddress
    requires RedisKey("ip", ClientKey(client)) !in service.redis.entries
    modifies service, service.redis
    ensures |logins| == 5
    ensures forall i :: 0 <= i < |logins| ==> !(logins[i].Failure? && logins[i].error.status == 429)
    ensures signup == Failure(HttpError(429, "Too many signup attempts. Try again in " + ResetText(Some(900)) + " seconds"))
  {
    var k := RedisKey("ip", ClientKey(client));
    logins := [];
    while |logins| < 5
      invariant service.Valid() && service.rateKeys == SharedByAddress && |logins| <= 5
      invariant |logins| == 0 ==> k !in service.redis.entries
      invariant |logins| > 0 ==> k in service.redis.entries && service.redis.entries[k] == Entry(|logins|, 900)
      invariant forall i :: 0 <= i < |logins| ==> !(logins[i].Failure? && logins[i].error.status == 429)
    {
      var r := CountedLogin(service, email, password, client, userAgent, now);
      logins := logins + [r];
    }
    signup := service.Signup(email, password, None, None, client, userAgent, now);
  }

  /** With endpoint-scoped keys, no number of login attempts makes a first
      signup from that address be refused by the limiter. */
  method LoginsThenSignupPerEndpoint(service: AuthService, n: nat, email: string, password: string,
                                     client: Option<string>, userAgent: Option<string>, now: int)
    returns (signup: Result<TokenResponse>)
    requires service.Valid() && service.rateKeys == PerEndpoint
    requires RedisKey("ip", RateLimitKey(PerEndpoint, "signup", ClientKey(client))) !in service.redis.entries
    modifies service, service.redis
    ensures !(signup.Failure? && signup.error.status == 429)
  {
    var k := RedisKey("ip", RateLimitKey(PerEndpoint, "signup", ClientKey(client)));
    RateLimitKeysDistinct("login", ClientKey(client), "signup", ClientKey(client));
    var i := 0;
    while i < n
      invariant service.Valid() && service.rateKeys == PerEndpoint
      invariant k !in service.redis.entries
    {
      var _ := CountedLogin(service, email, password, client, userAgent, now);
      i := i + 1;
    }
    signup := service.Signup(email, password, None, None, client, userAgent, now);
  }

  /** `Login`, seen only through its limiter call: the store moves by one call
      of the login limiter, and an admitted attempt is not answered with 429. */
  method CountedLogin(service: AuthService, email: string, password: string, client: Option<string>,
                      userAgent: Option<string>, now: int)
    returns (r: Result<TokenResponse>)
    requires service.Valid()
    modifies service, service.redis
    ensures service.Valid()
    ensures service.redis.entries == LoginLimit(old(service.redis.entries), service.rateKeys, client).store
    ensures LoginLimit(old(service.redis.entries), service.rateKeys, client).info.allowed ==>
      !(r.Failure? && r.error.status == 429)
  {
    r := service.Login(email, password, client, userAgent, now);
  }

  lemma TwoLiveSessions(sessions: map<int, Session>, a: int, b: int, h: string, now: int)
    requires a != b && a in sessions && b in sessions
    requires sessions[a].refreshTokenHash == h && sessions[b].refreshTokenHash == h
    requires sessions[a].expiresAt > now && sessions[b].expiresAt > now
    ensures |LiveSessionsWithHash(sessions, h, now)| > 1
  {
    SubsetCardinality({a, b}, LiveSessionsWithHash(sessions, h, now));
  }

  lemma SubsetCardinality(a: set<int>, b: set<int>)
    requires a <= b
    ensures |a| <= |b|
  {
    assert b == a + (b - a);
  }
}
