# DataCleanup Pro backend: authentication, limits, errors and production settings

This project models the sequential core of the DataCleanup Pro FastAPI backend in Dafny and proves properties of that model. It covers:

- **Rate limiter** (`RateLimit`, app/core/security.py).
  - A fixed-window counter over a Redis-like store.
  - One call reads the counter. On a miss it creates it at 1 with a time to live of one window. It refuses at or over the limit, and otherwise increments and reads the time to live back.
  - The store is a class whose methods are the Redis commands the limiter issues.
  - The limiter's method is proved equal to a pure one-step function, and the lemmas about many calls are stated over that function.
  - The code implements a fixed window, not a sliding one, and the model follows the code.
- **Tokens** (`Tokens`, app/core/security.py). The claims the two token factories stamp, `verify_token_type` and `verify_refresh_token`. The JWT codec is opaque, and a decode is represented by its outcome.
- **Authentication dependencies** (`Dependencies`, app/api/dependencies.py). The ordered guard chain of `get_current_user` and `get_current_active_user`, as pure functions over the users table.
- **Authentication endpoints** (`Auth`, app/api/v1/endpoints/auth.py).
  - A class holding the users, subscriptions and sessions tables with their autoincrement counters.
  - Methods for `signup`, `login`, `refresh_token`, `logout`, the Google callback and the helpers they call.
  - bcrypt, the JWT codec and SHA-256 are opaque functions held by the service.
  - Every method keeps an invariant: unique emails, rows pointing at existing users, and exactly one subscription per user.
  - Every handler that raises leaves the tables unchanged.
  - The key the handlers give the rate limiter is a field of the service (`RateKeys`). `SharedByAddress` is the source as written: the bare client address, one counter per address shared by all endpoints. `PerEndpoint` is the scheme each endpoint's own limit calls for (see Findings).
- **Plan limits** (`PlanLimits`, app/core/plan_limits.py). The `LIMITS` table, its fallback to FREE, the getters and `has_feature`.
- **Exception hierarchy** (`Exceptions`, app/core/exceptions.py). Every class with its fixed status, the details merges, `to_dict` with an inverse, and `__str__`.
- **Settings** (`Config`, app/core/config.py). The comma-list parsers, `is_production` and `cors_origins`, over the Python string operations in `Text` (`split`, `strip`, `str(int)`, `int(str)`).
- **Production validation** (`ConfigProduction`, app/core/config_production.py).
  - `validate_production` is specified as an ordered list of hard rules (`_must`) and warnings, with a first-failure semantics (`Run`).
  - The step-by-step procedure `ValidateProduction`, with its two loops, is proved equal to it.
  - The run passes exactly when an order-free statement of the policy holds.

Time is a parameter (`now`, in seconds), and so are the client address, the user agent and Google's token exchange.

## Model

| member | source | states |
|---|---|---|
| Text.Split | project10Data/backend/app/core/config.py:71 | `str.split` on one character gives one piece per separator plus one, none containing the separator |
| Text.JoinSplit | project10Data/backend/app/core/config.py:71 | joining the pieces of a split with the separator gives back the original string |
| Text.SplitJoin | project10Data/backend/app/core/config.py:71 | splitting a join of separator-free pieces gives back the pieces |
| Text.TrimStart | project10Data/backend/app/core/config.py:71 | `lstrip` leaves a suffix, everything it removed is whitespace, and the result does not start with whitespace |
| Text.TrimEnd | project10Data/backend/app/core/config.py:71 | `rstrip` leaves a prefix, everything it removed is whitespace, and the result does not end with whitespace |
| Text.Strip | project10Data/backend/app/core/config.py:71 | `strip()` returns the contiguous middle of the string, with only whitespace around it and no whitespace at either end |
| Text.StripUnpadded | project10Data/backend/app/core/config.py:71 | a string that neither starts nor ends with whitespace is left unchanged by `strip()` |
| Text.StripIdempotent | project10Data/backend/app/core/config.py:71 | stripping twice gives the same as stripping once |
| Text.StripAll | project10Data/backend/app/core/config.py:71 | the list comprehension strips each piece, keeping the count and the order |
| Text.ParseCommaList | project10Data/backend/app/core/config.py:67-71 | one stripped element per comma plus one, element i being piece i of the split |
| Text.ParseCommaListJoin | project10Data/backend/app/core/config.py:67-71 | parsing the comma-join of stripped, comma-free items gives exactly those items back |
| Text.NatToString | project10Data/backend/app/api/v1/endpoints/auth.py:138 | `str(n)` is a non-empty string of decimal digits with no leading zero |
| Text.IntToString | project10Data/backend/app/api/v1/endpoints/auth.py:138 | `str(i)` starts with '-' exactly for negative i, and is the digits of i otherwise |
| Text.DigitsValueOfNatToString | project10Data/backend/app/core/security.py:260 | the digits of `str(n)` have the value n |
| Text.IntToStringRoundTrip | project10Data/backend/app/core/security.py:260 | `int(str(i)) == i` for every integer |
| Text.IntToStringInjective | project10Data/backend/app/core/security.py:260 | distinct user ids give distinct `sub` strings |
| Text.IsSpace | project10Data/backend/app/core/config.py:71 | the characters Python's `str.isspace` accepts: ASCII 9-13 and 28-32, NEL, NBSP and the Unicode Zs, line and paragraph separators |
| Text.ParseInt | project10Data/backend/app/core/security.py:260 | Python's `int(s)` on a string: surrounding whitespace, an optional sign and one or more decimal digits, anything else a ValueError (None). Its property is IntToStringRoundTrip |
| Text.StartsWith | project10Data/backend/app/core/config_production.py:86-90 | Python's `s.startswith(prefix)`: the prefix is no longer than s and equals its first characters (also at lines 73 and 128-134). OriginChecksHold, LocalhostPrefixIsExempt, HeadChecksHold and MeetsProductionPolicy are stated over it |
| Text.Present | project10Data/backend/app/api/v1/endpoints/auth.py:407 | the truth of an optional string: `None` and `""` are false. It is `if not settings.GOOGLE_CLIENT_ID or not settings.GOOGLE_CLIENT_SECRET` (auth.py:407), `if not email` (auth.py:429), `_must(key_value, …)` (project10Data/backend/app/core/config_production.py:118-121) and `if not self.SENTRY_DSN` (project10Data/backend/app/core/config_production.py:152) |
| RateLimit.Step | project10Data/backend/app/core/security.py:171-217 | the call is admitted iff there is no counter or it is under the limit. An admitted call adds exactly one and reports `remaining = requests - count`. A new counter lives one window and an existing one keeps its time to live. A refused call changes nothing and reports 0 remaining. `reset` is the counter's time to live, and no other key changes |
| RateLimit.Expire | project10Data/backend/app/core/security.py:189 | after some seconds, exactly the counters whose time to live ran out are gone, and the rest keep their count with that much less time to live |
| RateLimit.RedisStore.constructor | project10Data/backend/app/core/redis.py:32-34 | the store starts empty |
| RateLimit.RedisStore.Get | project10Data/backend/app/core/redis.py:103-114 | GET answers the stored count, or None for a missing key |
| RateLimit.RedisStore.Set | project10Data/backend/app/core/redis.py:116-134 | SET with EX stores the value with that time to live and changes no other key |
| RateLimit.RedisStore.Incr | project10Data/backend/app/core/redis.py:162-173 | INCR adds one and keeps the time to live; a missing key starts at 1 without expiry |
| RateLimit.RedisStore.Ttl | project10Data/backend/app/core/redis.py:189-202 | TTL answers the stored time to live (-1 for no expiry), or None where Redis answers -2 for a missing key |
| RateLimit.RedisStore.Elapse | project10Data/backend/app/core/security.py:189 | the passing of time expires keys as `Expire` says |
| RateLimit.RateLimiter.constructor | project10Data/backend/app/core/security.py:155-169 | the limiter holds the given requests, window and identifier, the identifier defaulting to "ip" |
| RateLimit.RateLimiter.CheckRateLimit | project10Data/backend/app/core/security.py:171-217 | the GET / SET / INCR / TTL sequence returns exactly `Step`'s answer and leaves the store exactly as `Step` says |
| RateLimit.GetRateLimiter | project10Data/backend/app/core/security.py:220-222 | a fresh limiter with the given requests and window, keyed by "ip" |
| RateLimit.RedisKey | project10Data/backend/app/core/security.py:181 | the counter key is "rate_limit:", the identifier, ':' and the caller's key (its properties are the RedisKey lemmas below) |
| RateLimit.WindowBoundary | project10Data/backend/app/core/security.py:183-217 | from no counter, call i is admitted iff i < max(requests, 1), so a limit of 0 still admits one call. `remaining` is requests-i-1 while admitted and 0 after. The counter stops at that bound with one window to live, and no other key changes |
| RateLimit.ExactlyLimitAdmitted | project10Data/backend/app/core/security.py:183-217 | with a limit of at least 1, exactly `requests` consecutive calls are admitted and call requests+1 is refused |
| RateLimit.NextWindowAdmits | project10Data/backend/app/core/security.py:186-194 | once a full window has elapsed, the counter has expired and the next call is admitted |
| RateLimit.StillRefusedWithinWindow | project10Data/backend/app/core/security.py:198-206 | within the window a client that used up its limit stays refused, and `reset` is the seconds left |
| RateLimit.RedisKeyInjectiveInKey | project10Data/backend/app/core/security.py:181 | for one identifier, distinct client keys never share a counter |
| RateLimit.RedisKeyInjective | project10Data/backend/app/core/security.py:181 | for identifiers without ':', distinct (identifier, key) pairs never share a counter |
| RateLimit.RedisKeyLayout | project10Data/backend/app/core/security.py:181 | the counter key consists of "rate_limit:", the identifier, a ':' and the key |
| RateLimit.RedisKeyCollision | project10Data/backend/app/core/security.py:181 | an identifier containing ':' can collide: ("ip:a", "b") and ("ip", "a:b") share a counter |
| Tokens.ExpiresAt | project10Data/backend/app/core/security.py:51-56 | the expiry is now plus `expires_delta` when it is truthy, and now plus the configured default otherwise (a zero delta is falsy) |
| Tokens.StampClaims | project10Data/backend/app/core/security.py:48-62 | the caller's claims plus `exp`, `iat` and `type`, the stamped ones overriding any caller claim of the same name |
| Tokens.AccessClaims | project10Data/backend/app/core/security.py:43-71 | the claims of an access token: the caller's claims stamped with `type` "access" and an expiry of `expires_delta` or ACCESS_TOKEN_EXPIRE_MINUTES from now |
| Tokens.RefreshClaims | project10Data/backend/app/core/security.py:74-102 | the claims of a refresh token: the caller's claims stamped with `type` "refresh" and an expiry of `expires_delta` or REFRESH_TOKEN_EXPIRE_DAYS from now |
| Tokens.SubjectClaims | project10Data/backend/app/api/v1/endpoints/auth.py:138 | the handlers pass exactly one claim, `sub` set to `str(user_id)` |
| Tokens.Truthy | project10Data/backend/app/core/security.py:260 | the truth of a claim value in `if user_id`: a non-empty string or a non-zero number |
| Tokens.ClaimToInt | project10Data/backend/app/core/security.py:260 | `int(user_id)`: a string goes through `int(str)`, a number is itself. It is used by VerifyRefreshToken and by the `int(user_id)` of project10Data/backend/app/api/dependencies.py:45 |
| Tokens.VerifyTokenType | project10Data/backend/app/core/security.py:123-131 | raises 401 "Invalid token type. Expected …" iff the `type` claim is missing or differs |
| Tokens.VerifyRefreshToken | project10Data/backend/app/core/security.py:254-262 | a user id comes back only from a decodable refresh token with a truthy `sub`, and it is `int(sub)`. Conversely every such token gives `int(sub)`, which is None only when `int()` raises |
| Tokens.TokenTypesAreExclusive | project10Data/backend/app/core/security.py:58-62 | an access token passes only the access check and a refresh token only the refresh check, whatever type the caller's claims carried |
| Tokens.RefreshTokenRoundTrip | project10Data/backend/app/core/security.py:74-102 | verifying a refresh token issued for `{"sub": str(id)}` gives back id |
| Tokens.AccessTokenIsNoRefreshToken | project10Data/backend/app/core/security.py:254-262 | an access token never verifies as a refresh token |
| Dependencies.GetCurrentUser | project10Data/backend/app/api/dependencies.py:17-62 | a returned user is the active user the access token's `sub` names. A decode failure and a wrong type are the first two refusals, in that order. A 403 happens only for an existing, disabled user, and every refusal is 401, 403 or 500 |
| Dependencies.GetCurrentActiveUser | project10Data/backend/app/api/dependencies.py:65-73 | passes the user through iff active, else 403 "Inactive user" |
| Dependencies.WrongTypeRefusedBeforeLookup | project10Data/backend/app/api/dependencies.py:29-32 | a non-access token gets the same 401 whatever the users table holds |
| Dependencies.MissingSubjectIs401 | project10Data/backend/app/api/dependencies.py:35-41 | an access token without a truthy `sub` is the 401 "missing user identifier" |
| Dependencies.SubjectLookup | project10Data/backend/app/api/dependencies.py:44-62 | an unknown id is 401. An existing disabled user is 403, not 401. An active user is returned |
| Dependencies.ActiveCheckIsRedundant | project10Data/backend/app/api/dependencies.py:62-73 | `get_current_active_user` never refuses a user `get_current_user` returned |
| Dependencies.IssuedAccessTokenAuthenticates | project10Data/backend/app/api/dependencies.py:17-62 | an access token issued for an active user authenticates exactly that user |
| Dependencies.RefreshTokenNeverAuthenticates | project10Data/backend/app/api/dependencies.py:29-32 | a refresh token is always refused with "Invalid token type. Expected access" |
| Auth.ClientKey | project10Data/backend/app/api/v1/endpoints/auth.py:187 | the client's host, or "unknown" for a request without a client |
| Auth.RateLimitKey | project10Data/backend/app/api/v1/endpoints/auth.py:186-188 | as written, the key is the client address alone, the same for every endpoint. Scoped per endpoint, it is the endpoint name, ':' and the address |
| Auth.SignupLimit | project10Data/backend/app/api/v1/endpoints/auth.py:186-188 | signup's limiter call: 5 calls per 3600 seconds under identifier "ip" and the handler's key |
| Auth.LoginLimit | project10Data/backend/app/api/v1/endpoints/auth.py:245-247 | login's limiter call: 10 calls per 900 seconds under identifier "ip" and the handler's key |
| Auth.RefreshLimit | project10Data/backend/app/api/v1/endpoints/auth.py:302-304 | refresh's limiter call: 20 calls per 3600 seconds under identifier "ip" and the handler's key |
| Auth.SharedCounterAsWritten | project10Data/backend/app/api/v1/endpoints/auth.py:186-188 | with the key as written and no counter yet for the address, none of five login attempts is answered with 429, and the signup right after is refused with 429 "Too many signup attempts. Try again in 900 seconds" |
| Auth.LoginsThenSignupPerEndpoint | project10Data/backend/app/api/v1/endpoints/auth.py:186-188 | with endpoint-scoped keys and no signup counter yet for the address, after any number of login attempts the signup is not refused with 429 |
| Auth.CountedLogin | project10Data/backend/app/api/v1/endpoints/auth.py:245-252 | a login moves the store by exactly one login-limiter call, and an admitted attempt is not answered with 429 |
| Auth.ResetText | project10Data/backend/app/api/v1/endpoints/auth.py:193 | the `{rate_info['reset']}` part of the 429 texts: `str()` of the reset seconds, "None" when there is none (also lines 252 and 309) |
| Auth.ViewOf | project10Data/backend/app/api/v1/endpoints/auth.py:157-167 | the `user` object of a token response: id, email, first and last name and the verified flag |
| Auth.EmailTaken | project10Data/backend/app/api/v1/endpoints/auth.py:122-127 | some user row holds the email; GetUserByEmail finds a user exactly when it holds |
| Auth.SessionsWithHash | project10Data/backend/app/api/v1/endpoints/auth.py:364-370 | logout's query: the sessions whose stored hash is the token's, with no expiry condition |
| Auth.LiveSessionsWithHash | project10Data/backend/app/api/v1/endpoints/auth.py:323-329 | refresh's query: the sessions with the token's hash that expire after now. TwoLiveSessions and RefreshToken's 500 case rest on its size |
| Auth.AuthService.Valid | project10Data/backend/app/api/v1/endpoints/auth.py:86-154 | the tables' invariant: ids below the autoincrement counters, unique emails, subscriptions and sessions pointing at existing users, exactly one subscription per user. Every method keeps it |
| Auth.AuthService.AccessTokenFor | project10Data/backend/app/api/v1/endpoints/auth.py:225 | `create_access_token({"sub": str(user.id)})` with the default expiry |
| Auth.AuthService.RefreshTokenFor | project10Data/backend/app/api/v1/endpoints/auth.py:138 | `create_refresh_token({"sub": str(user_id)})` with the default expiry. Its property is RefreshTokenRoundTrip |
| Auth.AuthService.SessionFor | project10Data/backend/app/api/v1/endpoints/auth.py:141-150 | the session row: the user, the token's hash, the device, the address and an expiry REFRESH_TOKEN_EXPIRE_DAYS from now |
| Auth.RateLimitKeysDistinct | project10Data/backend/app/core/security.py:181 | endpoint-scoped keys of different endpoints or addresses never share a counter |
| Auth.LoginsDoNotAffectSignup | project10Data/backend/app/api/v1/endpoints/auth.py:186-188 | with endpoint-scoped keys, any number of login calls leaves the signup decision as it was |
| Auth.CallsFrame | project10Data/backend/app/core/security.py:171-217 | calls on one counter leave every other counter as it was |
| Auth.AuthService.constructor | project10Data/backend/app/api/v1/endpoints/auth.py:86-154 | the tables start empty and the invariant holds |
| Auth.AuthService.GetUserByEmail | project10Data/backend/app/api/v1/endpoints/auth.py:122-127 | a user is found iff the email is registered, and it is the one row with that email |
| Auth.AuthService.CreateUserWithSubscription | project10Data/backend/app/api/v1/endpoints/auth.py:86-119 | adds an active user with the next id and the given verified flag, plus exactly one FREE, ACTIVE subscription for it. Sessions are unchanged and the invariant is kept |
| Auth.AuthService.CreateUserSession | project10Data/backend/app/api/v1/endpoints/auth.py:130-154 | returns the refresh token for `{"sub": str(id)}` and adds one session under a fresh id. The session stores only the token's hash and expires `REFRESH_TOKEN_EXPIRE_DAYS` from now. Nothing else changes |
| Auth.AuthService.RecordLastLogin | project10Data/backend/app/api/v1/endpoints/auth.py:277-279 | sets the user's `last_login` to now and changes nothing else |
| Auth.AuthService.Signup | project10Data/backend/app/api/v1/endpoints/auth.py:177-233 | a rate-limit refusal gives 429 with the reset text. Then a registered email gives 400. Success happens iff both guards pass, adding an unverified user with one FREE subscription and one session, and answering both tokens. Every failure leaves the tables unchanged |
| Auth.AuthService.Login | project10Data/backend/app/api/v1/endpoints/auth.py:236-290 | 429, then unknown email 401, wrong password 401 with the same text, disabled 403, in that order. Only on success is `last_login` set and a session added. Every failure leaves the tables unchanged |
| Auth.AuthService.RefreshToken | project10Data/backend/app/api/v1/endpoints/auth.py:293-352 | 429, then no refresh user id or id 0 gives 401. No live session with the token's hash gives 401, and several give 500. A missing or inactive user gives 401. Success answers a new access token and the same refresh token, with no table change |
| Auth.AuthService.Logout | project10Data/backend/app/api/v1/endpoints/auth.py:355-376 | deletes the session holding the token's hash, if any, and answers success (several matching sessions make the query raise, 500). After success no session holds that hash |
| Auth.AuthService.GoogleCallback | project10Data/backend/app/api/v1/endpoints/auth.py:400-482 | 501 when Google is not configured. A failed exchange or a missing userinfo or email ends in the error redirect with no change. Otherwise an existing user gets `last_login`, or a verified user with one FREE subscription is created, and a session is added. There is no active check |
| Auth.LogoutTwice | project10Data/backend/app/api/v1/endpoints/auth.py:364-376 | a repeated logout answers success again and deletes nothing more |
| Auth.SameSecondLogins | project10Data/backend/app/api/v1/endpoints/auth.py:283-288 | two successful logins of one user in the same second get the same refresh token, and refreshing with it then fails (500, or 429 when rate limited) |
| Auth.TwoLogins | project10Data/backend/app/api/v1/endpoints/auth.py:236-290 | when both logins succeed, two live sessions hold the hash of one refresh token |
| Auth.SuccessfulLogin | project10Data/backend/app/api/v1/endpoints/auth.py:256-290 | a successful login is for the one user with that email and adds its session under the next session id |
| Auth.TwoLiveSessions | project10Data/backend/app/api/v1/endpoints/auth.py:324-329 | two distinct live sessions with one hash make the refresh query match more than one row |
| PlanLimits.GetLimits | project10Data/backend/app/core/plan_limits.py:98-108 | a plan in the table gets its row, any other plan gets FREE's |
| PlanLimits.GetAiMessageLimit | project10Data/backend/app/core/plan_limits.py:111-118 | 10 / 3000 / 10000 messages for FREE (and unlisted plans) / PRO / PRO_PLUS |
| PlanLimits.GetToolUsageLimit | project10Data/backend/app/core/plan_limits.py:121-128 | 4 / 3000 / 10000 tool uses |
| PlanLimits.GetFileSizeLimit | project10Data/backend/app/core/plan_limits.py:131-138 | 5 / 50 / 100 MB |
| PlanLimits.GetFilesPerChatLimit | project10Data/backend/app/core/plan_limits.py:141-148 | 5 / 10 / 15 files per chat |
| PlanLimits.GetAllFeatures | project10Data/backend/app/core/plan_limits.py:165-175 | every plan lists the same seven features |
| PlanLimits.HasFeature | project10Data/backend/app/core/plan_limits.py:151-162 | membership of the feature in the plan's (or FREE's) feature list (its property is FeaturesAreNotTiered) |
| PlanLimits.UnknownPlanFallsBackToFree | project10Data/backend/app/core/plan_limits.py:108 | a plan missing from the table gets exactly FREE's limits |
| PlanLimits.LimitsGrowWithTier | project10Data/backend/app/core/plan_limits.py:22-95 | a higher tier never has a lower message, tool, file-size or files-per-chat limit, and the message reset is 30 days for all |
| PlanLimits.FeaturesAreNotTiered | project10Data/backend/app/core/plan_limits.py:151-162 | `has_feature` is membership in the feature list and gives the same answer for every plan |
| PlanLimits.FeatureListHasNoDuplicates | project10Data/backend/app/core/plan_limits.py:37-45 | no feature is listed twice |
| PlanLimits.ToolResetPeriods | project10Data/backend/app/core/plan_limits.py:30 | tool usage resets hourly (every 12 hours) exactly for FREE and the plans falling back to it, and every 30 days for the paid tiers |
| Exceptions.KindNamed | project10Data/backend/app/core/exceptions.py:35 | a class name read back names that class |
| Exceptions.KindNamedName | project10Data/backend/app/core/exceptions.py:35 | every class is recovered from its `__name__` |
| Exceptions.NewFeatureNotAvailableError | project10Data/backend/app/core/exceptions.py:90-104 | details hold `feature` and `upgrade_required = True` plus the caller's keys, with the caller's values winning on a clash |
| Exceptions.NewValidationError | project10Data/backend/app/core/exceptions.py:121-126 | details are `{"field": f}` for a truthy field and `{}` otherwise |
| Exceptions.NewAIProviderError | project10Data/backend/app/core/exceptions.py:151-163 | details hold `provider` plus the caller's keys, with a caller's `provider` overriding it |
| Exceptions.ConstructorsFixTheirStatus | project10Data/backend/app/core/exceptions.py:16-163 | the base defaults to 500 and RetryableError to 503. Each other class fixes its status: 422, 422, 429, 403, 401, 403, 400, 402, 500, 502 |
| Exceptions.FixedStatus | project10Data/backend/app/core/exceptions.py:69-148 | definitional: the status each subclass passes to `super().__init__`, None for the two bases that take one. Its property is ConstructorsFixTheirStatus |
| Exceptions.RetryableClasses | project10Data/backend/app/core/exceptions.py:46-163 | the instances of RetryableError are exactly it, Quota, Stripe, Storage and AIProvider errors, and every class is a DataCleanupException |
| Exceptions.ToDict | project10Data/backend/app/core/exceptions.py:27-39 | exactly the keys error (the class name), message, status_code and details |
| Exceptions.ToDictRoundTrip | project10Data/backend/app/core/exceptions.py:27-39 | the dict determines the error: reading it back gives the same error |
| Exceptions.ToString | project10Data/backend/app/core/exceptions.py:41-43 | the text starts with the class name and '(' and ends with the message |
| Exceptions.ToStringLayout | project10Data/backend/app/core/exceptions.py:43 | (helper of ToStringInjective) the text is the name, '(', the status, ')', ": " and the message |
| Exceptions.ToStringInjective | project10Data/backend/app/core/exceptions.py:43 | the printed form determines the class, the status and the message |
| Exceptions.StatusAndMessageInjective | project10Data/backend/app/core/exceptions.py:43 | the text after '(' determines the status and the message |
| Exceptions.Name | project10Data/backend/app/core/exceptions.py:35 | `__class__.__name__`: each class's own name (its properties are KindNamedName and NameHasNoParen) |
| Exceptions.NameHasNoParen | project10Data/backend/app/core/exceptions.py:43 | no class name contains '(' |
| Exceptions.Parent | project10Data/backend/app/core/exceptions.py:13-151 | the base class in each class statement: RetryableError for the Quota, Stripe, Storage and AIProvider errors, DataCleanupException for the rest |
| Exceptions.IsInstanceOf | project10Data/backend/app/core/exceptions.py:13-151 | `isinstance`: the class itself or one of its ancestors (its properties are RetryableClasses) |
| Exceptions.DetailsOrEmpty | project10Data/backend/app/core/exceptions.py:24 | `details or {}`: the caller's details, an empty dict for None |
| Exceptions.FromDict | project10Data/backend/app/core/exceptions.py:27-39 | reads an error back from its dict; ToDictRoundTrip proves it inverts `to_dict` |
| Exceptions.NewDataCleanupException | project10Data/backend/app/core/exceptions.py:16-25 | the base class with the given message, status (500 by default) and details |
| Exceptions.NewRetryableError | project10Data/backend/app/core/exceptions.py:56-62 | a RetryableError with the given status (503 by default) and details |
| Exceptions.NewImageProcessingError | project10Data/backend/app/core/exceptions.py:65-69 | status 422 and the caller's details |
| Exceptions.NewOCRFailedError | project10Data/backend/app/core/exceptions.py:72-76 | status 422 and the caller's details |
| Exceptions.NewQuotaExceededError | project10Data/backend/app/core/exceptions.py:79-87 | status 429 and the caller's details |
| Exceptions.NewAuthenticationError | project10Data/backend/app/core/exceptions.py:107-111 | status 401, message "Authentication failed" by default, no details |
| Exceptions.NewAuthorizationError | project10Data/backend/app/core/exceptions.py:114-118 | status 403, message "Insufficient permissions" by default, no details |
| Exceptions.NewStripeError | project10Data/backend/app/core/exceptions.py:129-137 | status 402 and the caller's details |
| Exceptions.NewStorageError | project10Data/backend/app/core/exceptions.py:140-148 | status 500 and the caller's details |
| Config.ParseAllowedOrigins | project10Data/backend/app/core/config.py:67-71 | one stripped origin per comma plus one, in input order |
| Config.ParseImageFormats | project10Data/backend/app/core/config.py:112-116 | the same split-and-strip rule for image formats |
| Config.CorsOrigins | project10Data/backend/app/core/config.py:145-150 | a string value is parsed by the same rule, and a list is returned unchanged |
| Config.IsProduction | project10Data/backend/app/core/config.py:140-143 | true iff ENV is "production" (its property is IsProductionIgnoresEnvironment) |
| Config.IsProductionIgnoresEnvironment | project10Data/backend/app/core/config.py:140-143 | `is_production` holds iff ENV is "production", whatever ENVIRONMENT says |
| Config.CorsOriginsAgreeWithValidator | project10Data/backend/app/core/config.py:67-71 | the validated list and the raw string give the same `cors_origins` |
| ConfigProduction.MustError | project10Data/backend/app/core/config_production.py:170-173 | `_must` raises iff the condition is false, with the "[PRODUCTION CONFIG] " prefix |
| ConfigProduction.NonEmpty | project10Data/backend/app/core/config_production.py:103 | keeps exactly the non-empty keys, each as often as it occurs, so repeated secrets stay visible to the uniqueness rule |
| ConfigProduction.Elements | project10Data/backend/app/core/config_production.py:105 | `set(xs)`. Its properties are ElementsMembers and SetSizeMeansDistinct |
| ConfigProduction.StripeKey | project10Data/backend/app/core/config_production.py:117 | `getattr(self, name)` for the three Stripe key names. KeyChecksHold and StripeKeysHold state the rules over it |
| ConfigProduction.Step | project10Data/backend/app/core/config_production.py:170-173 | one rule in front of the later ones: a false hard rule raises its message and stops the run, and a firing warning puts its line in front of the later log |
| ConfigProduction.Run | project10Data/backend/app/core/config_production.py:42-168 | the rules in order with first-failure semantics (its properties are the Run lemmas below) |
| ConfigProduction.Program | project10Data/backend/app/core/config_production.py:42-168 | the rules of `validate_production` in source order: fixed rules, CORS origins, secrets, billing, URLs and warnings |
| ConfigProduction.MeetsProductionPolicy | project10Data/backend/app/core/config_production.py:42-168 | every hard rule of the policy, stated without order (ValidationPassesIffPolicy ties it to the run) |
| ConfigProduction.RunFailsIffSomeMustFails | project10Data/backend/app/core/config_production.py:170-173 | a run raises iff some hard rule is false |
| ConfigProduction.RunReportsFirstFailure | project10Data/backend/app/core/config_production.py:170-173 | the error raised carries the message of the first false hard rule, all earlier ones holding |
| ConfigProduction.RunAppend | project10Data/backend/app/core/config_production.py:42-168 | running two rule lists in sequence stops at a failure in the first, otherwise the logs concatenate |
| ConfigProduction.ProgramRun | project10Data/backend/app/core/config_production.py:42-168 | the validation runs its sections in order: fixed rules, CORS origins, secrets, billing, URLs and warnings |
| ConfigProduction.WarningsNeverFail | project10Data/backend/app/core/config_production.py:149-166 | whether and how a run fails depends on its hard rules only |
| ConfigProduction.OriginChecksHold | project10Data/backend/app/core/config_production.py:84-92 | the origin rules hold iff every origin starts with "http://localhost" or "https://" |
| ConfigProduction.KeyChecksHold | project10Data/backend/app/core/config_production.py:116-121 | the key rules hold iff every named Stripe key is truthy |
| ConfigProduction.ElementsMembers | project10Data/backend/app/core/config_production.py:105 | `set(xs)` holds exactly the elements of xs |
| ConfigProduction.SetSizeMeansDistinct | project10Data/backend/app/core/config_production.py:104-107 | `len(set(xs)) == len(xs)` iff xs is pairwise distinct |
| ConfigProduction.HeadChecksHold | project10Data/backend/app/core/config_production.py:50-81 | the fixed rules hold iff ENVIRONMENT is production, DEBUG, DB_ECHO and API_RELOAD are off, cookies are secure, SameSite is lax or strict, logs are JSON, the frontend is HTTPS and there is no "*" origin |
| ConfigProduction.StripeKeysHold | project10Data/backend/app/core/config_production.py:110-121 | the key rules hold iff all three Stripe keys are set |
| ConfigProduction.PrefixWarningsHold | project10Data/backend/app/core/config_production.py:123-135 | the Stripe prefix checks contain no hard rule |
| ConfigProduction.BillingChecksHold | project10Data/backend/app/core/config_production.py:110-135 | the billing section holds iff billing is off or all three keys are set |
| ConfigProduction.AfterBillingHold | project10Data/backend/app/core/config_production.py:137-166 | the last section holds iff the database and Redis URLs are non-empty |
| ConfigProduction.SecretsCheckHolds | project10Data/backend/app/core/config_production.py:104-107 | the secrets rule holds iff the non-empty secrets are pairwise distinct |
| ConfigProduction.AfterOriginsHold | project10Data/backend/app/core/config_production.py:94-166 | from the secrets on, the rules hold iff the non-empty secrets are distinct, billing keys are set when billing is on, and both URLs are non-empty |
| ConfigProduction.ValidationPassesIffPolicy | project10Data/backend/app/core/config_production.py:42-168 | the validation passes iff every hard rule of the production policy holds, stated without order |
| ConfigProduction.LoopbackAddressFails | project10Data/backend/app/core/config_production.py:84-92 | a "http://127.0.0.1" CORS origin always fails the validation |
| ConfigProduction.LocalhostPrefixIsExempt | project10Data/backend/app/core/config_production.py:86-87 | any origin with the "http://localhost" prefix, even "http://localhost.example.com", is exempt, while "http://127.0.0.1" is checked and fails |
| ConfigProduction.StripePrefixesNeverFail | project10Data/backend/app/core/config_production.py:123-135 | changing the Stripe key values without changing which are set never changes whether or how validation fails |
| ConfigProduction.HeadRun | project10Data/backend/app/core/config_production.py:50-81 | the fixed rules raise the message of the first one violated, in source order |
| ConfigProduction.OriginStep | project10Data/backend/app/core/config_production.py:84-92 | an allowed origin passes on to the next and any other raises "CORS origin must use HTTPS in production. Got: …" |
| ConfigProduction.PrefixWarningsRun | project10Data/backend/app/core/config_production.py:128-135 | each Stripe key that is set but lacks its prefix logs its warning, in order, and nothing raises |
| ConfigProduction.AfterBillingRun | project10Data/backend/app/core/config_production.py:137-166 | a missing DATABASE_URL raises first, then a missing REDIS_URL, otherwise the warnings run |
| ConfigProduction.FinalChecksLog | project10Data/backend/app/core/config_production.py:149-166 | the warning stage logs each collected warning with the ⚠️ mark, in order, and never raises |
| ConfigProduction.CheckFixedRules | project10Data/backend/app/core/config_production.py:50-81 | the sequence of `_must` calls raises what the rule list's run raises |
| ConfigProduction.CheckCorsOrigins | project10Data/backend/app/core/config_production.py:84-92 | the loop over the origins, skipping localhost ones, raises what the origin rules' run raises |
| ConfigProduction.CheckStripeKeys | project10Data/backend/app/core/config_production.py:116-121 | the loop over the three key names raises what the key rules' run raises |
| ConfigProduction.CheckBilling | project10Data/backend/app/core/config_production.py:110-135 | the billing block logs and raises exactly as the billing rules' run |
| ConfigProduction.LogWarnings | project10Data/backend/app/core/config_production.py:150-166 | building the warnings list and the logging loop log exactly the warning stage's lines |
| ConfigProduction.ValidateProduction | project10Data/backend/app/core/config_production.py:42-168 | the whole procedure logs and raises exactly what the ordered rule list's run does |

## Left out

- Cryptography and encoding (bcrypt, the JWT codec, SHA-256 in `hash_token`, `secrets`) are opaque functions. Only which function is applied to what is modelled.
- A JWT decode failure, an expired token included, is the outcome `None` of the decode function. Expiry checking belongs to the JWT library.
- Concurrency is not modelled. Every handler and the limiter's GET-then-INCR run sequentially, so the race between two concurrent calls is outside the model.
- No time passes inside one limiter call. In the source the counter can expire between the GET and the INCR of one call; INCR then re-creates it at 1 with no expiry, so the counter never expires and the address is refused for good once it reaches the limit (project10Data/backend/app/core/security.py:184-210). The model does not have this case.
- With DEBUG on, the application's 500 answer carries `str(exc)` instead of "Internal server error" (project10Data/backend/app/main.py:258-262). The model has DEBUG off.
- Of the Redis client wrapper in app/core/redis.py only GET, SET with expiry, INCR and TTL are modelled. Connection handling, the other commands and Redis errors are left out. One such error is the non-positive window: `SET … EX` rejects an expiry of 0 or less, so in the source a limiter with `window <= 0` fails on its first call. The model requires `window > 0` instead; every limiter in the code uses 3600, 900 or 60.
- The info logs of `validate_production`, the warning logs of `decode_token` and the welcome email in signup (with its try/except) are left out, as are the email service calls.
- The redirect URLs of the Google callback are left out. They are string building around the two tokens, which are what the model returns. `google_login` and the authlib exchange itself are also left out; the exchange is a parameter.
- `forgot_password` and `reset_password` are placeholders that answer constants, and are left out.
- The security headers and the other helpers of config_production.py after `_must`, and its module-level directory creation (filesystem I/O), are left out.
- The secret keys and Stripe keys are modelled as their string values. With pydantic `SecretStr` fields, `str()` gives a masked text. app/core/config_enhanced.py, which declares these fields, is not part of this model.
- `int()` on a `sub` claim accepts the Python forms sign, digits and surrounding whitespace. Underscore separators and non-ASCII digits are not modelled.
- A claim value is a string or an integer. A JSON float or boolean `sub` (for which `int()` succeeds, or which is truthy) is not modelled. Only a token signed with the server's key could carry one.
- The refresh query compares `expires_at` with `datetime.utcnow()` while sessions are stamped with an aware UTC time. The model uses one clock in seconds for both, so the naive versus aware mismatch is not modelled.
- Auth.AuthService.CreateUserWithSubscription: requires that the email is not registered. In the source the database's unique constraint would raise instead; both callers check the email first.
- Auth.AuthService.RefreshToken and Auth.AuthService.Logout: several matching sessions are modelled as a 500 (`scalar_one_or_none` raising), not as the exception type itself.
- Auth.SameSecondLogins: requires that the JWT codec decodes what it encoded (a requires on the opaque functions). TwoLogins and SuccessfulLogin are the steps of this scenario.

## Findings

| source | as written | input that shows it | evidently intended | confidence | as-written member | corrected member |
|---|---|---|---|---|---|---|
| project10Data/backend/app/api/v1/endpoints/auth.py:186-188 | signup, login and refresh all call `check_rate_limit(request, client_ip)` on limiters with identifier "ip". All three endpoints therefore count on the one Redis key `rate_limit:ip:<address>` despite their different limits and windows | five admitted login attempts from address A within 15 minutes, then a signup from A: the signup is refused with 429, although no signup was made | each endpoint's limit ("5 signups per hour", "10 logins per 15 minutes", "20 refreshes per hour") counts only that endpoint's calls | not executed | Auth.SharedCounterAsWritten | Auth.LoginsThenSignupPerEndpoint |
