/** `ProdSettings.validate_production` and `_must` of
    app/core/config_production.py: an ordered list of rules over the
    production settings. A failed hard rule raises `ProductionConfigError`
    with the message of the FIRST rule that failed; soft rules only log a
    warning. The validation is specified by `Program` (the rules in the order
    the source checks them) and `Run` (their effect), and `ValidateProduction`
    is the step-by-step procedure proved equal to it. */
module ConfigProduction {
  import opened Text

  const ErrorPrefix := "[PRODUCTION CONFIG] "

  /** The warning sign and space the logged warnings start with. */
  const WarningMark := "\U{26A0}\U{FE0F} "

  /** The settings the validation reads. The secret and Stripe keys are their
      string values. */
  datatype ProdSettings = ProdSettings(
    environment: string,
    debug: bool,
    dbEcho: bool,
    apiReload: bool,
    sessionCookieSecure: bool,
    sessionCookieSamesite: string,
    logFormat: string,
    frontendOrigin: string,
    backendCorsOrigins: seq<string>,
    secretKey: string,
    jwtSecretKey: string,
    sessionSecretKey: string,
    csrfSecretKey: string,
    billingEnabled: bool,
    stripeSecretKey: Option<string>,
    stripePublishableKey: Option<string>,
    stripeWebhookSecret: Option<string>,
    databaseUrl: string,
    redisUrl: string,
    sentryDsn: Option<string>,
    hasAiProviders: bool,
    hasEmail: bool,
    metricsEnabled: bool)

  /** A hard rule (`_must(holds, message)`) or a soft one (a warning logged as
      `line` when it `fires`). */
  datatype Check = Must(holds: bool, message: string) | Warn(fires: bool, line: string)

  /** What a validation does: the warning lines it logs and the error it
      raises, if any. */
  datatype Report = Report(log: seq<string>, failure: Option<string>)

  /** `_must`: the error raised, exactly when the condition is false. */
  function MustError(condition: bool, message: string): (error: Option<string>)
    ensures error.Some? <==> !condition
    ensures error.Some? ==> error.value == ErrorPrefix + message
  {
    if !condition then Some(ErrorPrefix + message) else None
  }

  /** The effect of one rule in front of what the later rules do. */
  function Step(c: Check, later: Report): Report {
    match c
    case Must(holds, message) =>
      if MustError(holds, message).Some? then Report([], MustError(holds, message)) else later
    case Warn(fires, line) =>
      if fires then Report([line] + later.log, later.failure) else later
  }

  /** Running rules in order: a failed hard rule stops the run. */
  function Run(checks: seq<Check>): Report {
    if checks == [] then Report([], None) else Step(checks[0], Run(checks[1..]))
  }

  /** The rules `validate_production` checks, in its order. */
  function Program(s: ProdSettings): seq<Check> {
    HeadChecks(s) + (OriginChecks(s.backendCorsOrigins) + AfterOrigins(s))
  }

  // The messages of the fixed hard rules.
  const EnvironmentRule := "ENVIRONMENT must be 'production'"
  const DebugRule := "DEBUG must be False"
  const DbEchoRule := "DB_ECHO must be False"
  const ApiReloadRule := "API_RELOAD must be False"
  const CookieSecureRule := "SESSION_COOKIE_SECURE must be True"
  const SameSiteRule := "SESSION_COOKIE_SAMESITE must be 'lax' or 'strict'"
  const LogFormatRule := "LOG_FORMAT must be 'json' for structured logging"
  const FrontendRule := "FRONTEND_ORIGIN must use HTTPS in production. Got: "
  const WildcardRule := "CORS wildcard '*' not allowed in production"
  const OriginRule := "CORS origin must use HTTPS in production. Got: "
  const SecretsRule := "All secret keys must be unique"
  const KeyRule := " must be set when BILLING_ENABLED=True"
  const SecretKeyWarning := "STRIPE_SECRET_KEY does not look like a live key (should start with 'sk_live_')"
  const PublishableKeyWarning := "STRIPE_PUBLISHABLE_KEY does not look like a live key (should start with 'pk_live_')"
  const WebhookSecretWarning := "STRIPE_WEBHOOK_SECRET does not look like a valid webhook secret (should start with 'whsec_')"
  const DatabaseUrlRule := "DATABASE_URL must be configured"
  const RedisUrlRule := "REDIS_URL must be configured"
  const SentryWarning := "Sentry DSN not configured - errors won't be tracked"
  const AiProvidersWarning := "No AI providers configured - AI features will be disabled"
  const EmailWarning := "Email not configured - email notifications disabled"
  const MetricsWarning := "Metrics disabled - no Prometheus monitoring"

  function HeadChecks(s: ProdSettings): seq<Check> {
    [ Must(s.environment == "production", EnvironmentRule),
      Must(!s.debug, DebugRule),
      Must(!s.dbEcho, DbEchoRule),
      Must(!s.apiReload, ApiReloadRule),
      Must(s.sessionCookieSecure, CookieSecureRule),
      Must(s.sessionCookieSamesite in {"lax", "strict"}, SameSiteRule),
      Must(s.logFormat == "json", LogFormatRule),
      Must(StartsWith(s.frontendOrigin, "https://"),
           FrontendRule + s.frontendOrigin),
      Must("*" !in s.backendCorsOrigins, WildcardRule) ]
  }

  /** The rule for one CORS origin: none for an `http://localhost` prefix,
      else it must be HTTPS. */
  function OriginCheck(origin: string): seq<Check> {
    if StartsWith(origin, "http://localhost") then []
    else [Must(StartsWith(origin, "https://"), OriginRule + origin)]
  }

  function OriginChecks(origins: seq<string>): seq<Check> {
    if origins == [] then [] else OriginCheck(origins[0]) + OriginChecks(origins[1..])
  }

  function AfterOrigins(s: ProdSettings): seq<Check> {
    [SecretsCheck(s)] + (BillingChecks(s) + AfterBilling(s))
  }

  function SecretKeys(s: ProdSettings): seq<string> {
    [s.secretKey, s.jwtSecretKey, s.sessionSecretKey, s.csrfSecretKey]
  }

  /** `[k for k in keys if k]` */
  function NonEmpty(keys: seq<string>): (r: seq<string>)
    ensures forall k :: k in r <==> k in keys && k != ""
    // every non-empty key is kept as often as it occurs
    ensures multiset(r) == multiset(keys)["" := 0]
  {
    if keys == [] then []
    else
      assert keys == [keys[0]] + keys[1..];
      if keys[0] == "" then NonEmpty(keys[1..])
    else [keys[0]] + NonEmpty(keys[1..])
  }

  /** `set(xs)` */
  function Elements(xs: seq<string>): set<string> {
    if xs == [] then {} else {xs[0]} + Elements(xs[1..])
  }

  function SecretsCheck(s: ProdSettings): Check {
    Must(|Elements(NonEmpty(SecretKeys(s)))| == |NonEmpty(SecretKeys(s))|, SecretsRule)
  }

  const StripeKeyNames: seq<string> := ["STRIPE_SECRET_KEY", "STRIPE_PUBLISHABLE_KEY", "STRIPE_WEBHOOK_SECRET"]

  /** `getattr(self, name)` for the three Stripe key names. */
  function StripeKey(s: ProdSettings, name: string): Option<string> {
    if name == "STRIPE_SECRET_KEY" then s.stripeSecretKey
    else if name == "STRIPE_PUBLISHABLE_KEY" then s.stripePublishableKey
    else if name == "STRIPE_WEBHOOK_SECRET" then s.stripeWebhookSecret
    else None
  }

  function KeyChecks(s: ProdSettings, names: seq<string>): seq<Check> {
    if names == [] then []
    else [Must(Present(StripeKey(s, names[0])), names[0] + KeyRule)]
         + KeyChecks(s, names[1..])
  }

  /** A Stripe key is set and lacks the expected prefix. */
  predicate BadPrefix(key: Option<string>, prefix: string) {
    Present(key) && !StartsWith(key.value, prefix)
  }

  function PrefixWarnings(s: ProdSettings): seq<Check> {
    [ Warn(BadPrefix(s.stripeSecretKey, "sk_live_"),
           WarningMark + SecretKeyWarning),
      Warn(BadPrefix(s.stripePublishableKey, "pk_live_"),
           WarningMark + PublishableKeyWarning),
      Warn(BadPrefix(s.stripeWebhookSecret, "whsec_"),
           WarningMark + WebhookSecretWarning) ]
  }

  function BillingChecks(s: ProdSettings): seq<Check> {
    if s.billingEnabled then KeyChecks(s, StripeKeyNames) + PrefixWarnings(s) else []
  }

  function AfterBilling(s: ProdSettings): seq<Check> {
    [ Must(s.databaseUrl != "", DatabaseUrlRule),
      Must(s.redisUrl != "", RedisUrlRule) ]
    + FinalChecks(s)
  }

  /** The non-blocking warnings, without their mark. */
  function Warnings(s: ProdSettings): seq<string> {
    (if !Present(s.sentryDsn) then [SentryWarning] else [])
    + (if !s.hasAiProviders then [AiProvidersWarning] else [])
    + (if !s.hasEmail then [EmailWarning] else [])
    + (if !s.metricsEnabled then [MetricsWarning] else [])
  }

  function FinalChecks(s: ProdSettings): seq<Check> {
    [ Warn(!Present(s.sentryDsn), WarningMark + SentryWarning),
      Warn(!s.hasAiProviders, WarningMark + AiProvidersWarning),
      Warn(!s.hasEmail, WarningMark + EmailWarning),
      Warn(!s.metricsEnabled, WarningMark + MetricsWarning) ]
  }

  // ---------------------------------------------------------------------------
  // The policy, stated independently of the order of the rules
  // ---------------------------------------------------------------------------

  predicate OriginAllowed(origin: string) {
    StartsWith(origin, "http://localhost") || StartsWith(origin, "https://")
  }

  predicate Distinct(xs: seq<string>) {
    forall i, j :: 0 <= i < j < |xs| ==> xs[i] != xs[j]
  }

  /** Every hard rule of the production policy. */
  predicate MeetsProductionPolicy(s: ProdSettings) {
    && s.environment == "production"
    && !s.debug && !s.dbEcho && !s.apiReload
    && s.sessionCookieSecure
    && (s.sessionCookieSamesite == "lax" || s.sessionCookieSamesite == "strict")
    && s.logFormat == "json"
    && StartsWith(s.frontendOrigin, "https://")
    && "*" !in s.backendCorsOrigins
    && (forall o :: o in s.backendCorsOrigins ==> OriginAllowed(o))
    && Distinct(NonEmpty(SecretKeys(s)))
    && (s.billingEnabled ==>
          Present(s.stripeSecretKey) && Present(s.stripePublishableKey) && Present(s.stripeWebhookSecret))
    && s.databaseUrl != "" && s.redisUrl != ""
  }

  predicate AllMustsHold(checks: seq<Check>) {
    forall c :: c in checks && c.Must? ==> c.holds
  }

  // ---------------------------------------------------------------------------
  // Lemmas about Run
  // ---------------------------------------------------------------------------

  /** A run fails exactly when some hard rule is false. */
  lemma {:induction false} RunFailsIffSomeMustFails(checks: seq<Check>)
    ensures Run(checks).failure.None? <==> AllMustsHold(checks)
  {
    if checks != [] {
      RunFailsIffSomeMustFails(checks[1..]);
      assert forall c :: c in checks <==> c == checks[0] || c in checks[1..];
    }
  }

  /** The error raised names the first hard rule that is false. */
  lemma {:induction false} RunReportsFirstFailure(checks: seq<Check>)
    requires Run(checks).failure.Some?
    ensures exists i :: 0 <= i < |checks| && checks[i].Must? && !checks[i].holds
                        && Run(checks).failure == Some(ErrorPrefix + checks[i].message)
                        && AllMustsHold(checks[..i])
  {
    var c := checks[0];
    if c.Must? && !c.holds {
      assert checks[..0] == [];
    } else {
      RunReportsFirstFailure(checks[1..]);
      var i :| 0 <= i < |checks[1..]| && checks[1..][i].Must? && !checks[1..][i].holds
               && Run(checks[1..]).failure == Some(ErrorPrefix + checks[1..][i].message)
               && AllMustsHold(checks[1..][..i]);
      assert checks[..i + 1] == [c] + checks[1..][..i];
      assert checks[i + 1] == checks[1..][i];
    }
  }

  /** Running a concatenation: the second part runs only if the first did not
      fail. */
  lemma {:induction false} RunAppend(a: seq<Check>, b: seq<Check>)
    ensures Run(a + b) == if Run(a).failure.Some? then Run(a)
                          else Report(Run(a).log + Run(b).log, Run(b).failure)
  {
    if a == [] {
      assert a + b == b;
    } else {
      assert (a + b)[1..] == a[1..] + b;
      RunAppend(a[1..], b);
    }
  }

  /** What running two lists of rules one after the other does. */
  function Then(first: Report, second: Report): Report {
    if first.failure.Some? then first else Report(first.log + second.log, second.failure)
  }

  /** The effect of the program, section by section. */
  lemma ProgramRun(s: ProdSettings)
    ensures Run(Program(s)) ==
      Then(Run(HeadChecks(s)), Then(Run(OriginChecks(s.backendCorsOrigins)),
        Then(Run([SecretsCheck(s)]), Then(Run(BillingChecks(s)), Run(AfterBilling(s))))))
  {
    RunAppend(HeadChecks(s), OriginChecks(s.backendCorsOrigins) + AfterOrigins(s));
    RunAppend(OriginChecks(s.backendCorsOrigins), AfterOrigins(s));
    RunAppend([SecretsCheck(s)], BillingChecks(s) + AfterBilling(s));
    RunAppend(BillingChecks(s), AfterBilling(s));
  }

  /** The hard rules alone decide the failure: removing or changing soft rules
      never changes it. */
  function MustsOf(checks: seq<Check>): seq<Check> {
    if checks == [] then []
    else (if checks[0].Must? then [checks[0]] else []) + MustsOf(checks[1..])
  }

  lemma {:induction false} WarningsNeverFail(checks: seq<Check>)
    ensures Run(checks).failure == Run(MustsOf(checks)).failure
  {
    if checks != [] {
      WarningsNeverFail(checks[1..]);
      RunAppend(if checks[0].Must? then [checks[0]] else [], MustsOf(checks[1..]));
      if checks[0].Must? {
        assert Run([checks[0]]) == Step(checks[0], Run([checks[0]][1..]));
        assert [checks[0]][1..] == [];
      }
    }
  }

  lemma {:induction false} MustsOfAppend(a: seq<Check>, b: seq<Check>)
    ensures MustsOf(a + b) == MustsOf(a) + MustsOf(b)
  {
    if a == [] {
      assert a + b == b;
    } else {
      assert (a + b)[1..] == a[1..] + b;
      MustsOfAppend(a[1..], b);
    }
  }

  // ---------------------------------------------------------------------------
  // Lemmas about the production rules
  // ---------------------------------------------------------------------------

  lemma AllMustsHoldAppend(a: seq<Check>, b: seq<Check>)
    ensures AllMustsHold(a + b) <==> AllMustsHold(a) && AllMustsHold(b)
  {
    assert forall c :: c in a + b <==> c in a || c in b;
  }

  lemma {:induction false} OriginChecksHold(origins: seq<string>)
    ensures AllMustsHold(OriginChecks(origins)) <==> forall o :: o in origins ==> OriginAllowed(o)
  {
    if origins != [] {
      OriginChecksHold(origins[1..]);
      AllMustsHoldAppend(OriginCheck(origins[0]), OriginChecks(origins[1..]));
      assert AllMustsHold(OriginCheck(origins[0])) <==> OriginAllowed(origins[0]);
      assert forall o :: o in origins <==> o == origins[0] || o in origins[1..];
    }
  }

  lemma {:induction false} KeyChecksHold(s: ProdSettings, names: seq<string>)
    ensures AllMustsHold(KeyChecks(s, names)) <==> forall n :: n in names ==> Present(StripeKey(s, n))
  {
    if names != [] {
      KeyChecksHold(s, names[1..]);
      var c := Must(Present(StripeKey(s, names[0])), names[0] + KeyRule);
      AllMustsHoldAppend([c], KeyChecks(s, names[1..]));
      assert forall n :: n in names <==> n == names[0] || n in names[1..];
    }
  }

  /** `set(xs)` holds exactly the items of `xs`. */
  lemma {:induction false} ElementsMembers(xs: seq<string>, x: string)
    ensures x in Elements(xs) <==> x in xs
  {
    if xs != [] {
      ElementsMembers(xs[1..], x);
    }
  }

  lemma {:induction false} ElementsBound(xs: seq<string>)
    ensures |Elements(xs)| <= |xs|
  {
    if xs != [] {
      ElementsBound(xs[1..]);
    }
  }

  /** `len(set(xs)) == len(xs)` means the items are pairwise distinct. */
  lemma {:induction false} SetSizeMeansDistinct(xs: seq<string>)
    ensures |Elements(xs)| == |xs| <==> Distinct(xs)
  {
    if xs != [] {
      var t := xs[1..];
      SetSizeMeansDistinct(t);
      ElementsBound(t);
      ElementsMembers(t, xs[0]);
      if xs[0] in t {
        assert Elements(xs) == Elements(t);
        var j :| 0 <= j < |t| && t[j] == xs[0];
        assert xs[0] == xs[j + 1];
      } else {
        assert |Elements(xs)| == 1 + |Elements(t)|;
        DistinctCons(xs);
      }
    }
  }

  /** A sequence is distinct when its head is new and its tail is distinct. */
  lemma DistinctCons(xs: seq<string>)
    requires xs != [] && xs[0] !in xs[1..]
    ensures Distinct(xs) <==> Distinct(xs[1..])
  {
    var t := xs[1..];
    if Distinct(t) {
      forall i, j | 0 <= i < j < |xs|
        ensures xs[i] != xs[j]
      {
        assert xs[j] == t[j - 1];
        if i > 0 {
          assert xs[i] == t[i - 1];
        }
      }
    }
    if Distinct(xs) {
      forall i, j | 0 <= i < j < |t|
        ensures t[i] != t[j]
      {
        assert t[i] == xs[i + 1] && t[j] == xs[j + 1];
      }
    }
  }

  lemma HeadChecksHold(s: ProdSettings)
    ensures AllMustsHold(HeadChecks(s)) <==>
      && s.environment == "production"
      && !s.debug && !s.dbEcho && !s.apiReload
      && s.sessionCookieSecure
      && (s.sessionCookieSamesite == "lax" || s.sessionCookieSamesite == "strict")
      && s.logFormat == "json"
      && StartsWith(s.frontendOrigin, "https://")
      && "*" !in s.backendCorsOrigins
  {
    RunFailsIffSomeMustFails(HeadChecks(s));
    HeadRun(s);
  }

  lemma StripeKeysHold(s: ProdSettings)
    ensures AllMustsHold(KeyChecks(s, StripeKeyNames)) <==>
      Present(s.stripeSecretKey) && Present(s.stripePublishableKey) && Present(s.stripeWebhookSecret)
  {
    KeyChecksHold(s, StripeKeyNames);
    assert StripeKey(s, "STRIPE_SECRET_KEY") == s.stripeSecretKey;
    assert StripeKey(s, "STRIPE_PUBLISHABLE_KEY") == s.stripePublishableKey;
    assert StripeKey(s, "STRIPE_WEBHOOK_SECRET") == s.stripeWebhookSecret;
    assert forall n :: n in StripeKeyNames <==>
                      n == "STRIPE_SECRET_KEY" || n == "STRIPE_PUBLISHABLE_KEY" || n == "STRIPE_WEBHOOK_SECRET";
  }

  lemma PrefixWarningsHold(s: ProdSettings)
    ensures AllMustsHold(PrefixWarnings(s))
  {
    var w := PrefixWarnings(s);
    assert forall c :: c in w ==> c == w[0] || c == w[1] || c == w[2];
  }

  lemma BillingChecksHold(s: ProdSettings)
    ensures AllMustsHold(BillingChecks(s)) <==>
      (s.billingEnabled ==>
         Present(s.stripeSecretKey) && Present(s.stripePublishableKey) && Present(s.stripeWebhookSecret))
  {
    if s.billingEnabled {
      AllMustsHoldAppend(KeyChecks(s, StripeKeyNames), PrefixWarnings(s));
      StripeKeysHold(s);
      PrefixWarningsHold(s);
    }
  }

  lemma AfterBillingHold(s: ProdSettings)
    ensures AllMustsHold(AfterBilling(s)) <==> s.databaseUrl != "" && s.redisUrl != ""
  {
    var u := AfterBilling(s);
    var f := FinalChecks(s);
    assert forall c :: c in u ==> c == u[0] || c == u[1] || c in f;
    assert forall c :: c in f ==> c == f[0] || c == f[1] || c == f[2] || c == f[3];
    assert u[0] in u && u[1] in u;
  }

  lemma AfterOriginsHold(s: ProdSettings)
    ensures AllMustsHold(AfterOrigins(s)) <==>
      && Distinct(NonEmpty(SecretKeys(s)))
      && (s.billingEnabled ==>
            Present(s.stripeSecretKey) && Present(s.stripePublishableKey) && Present(s.stripeWebhookSecret))
      && s.databaseUrl != "" && s.redisUrl != ""
  {
    SecretsCheckHolds(s);
    AllMustsHoldAppend([SecretsCheck(s)], BillingChecks(s) + AfterBilling(s));
    AllMustsHoldAppend(BillingChecks(s), AfterBilling(s));
    BillingChecksHold(s);
    AfterBillingHold(s);
  }

  /** The secrets rule holds exactly when the non-empty secrets are distinct. */
  lemma SecretsCheckHolds(s: ProdSettings)
    ensures AllMustsHold([SecretsCheck(s)]) <==> Distinct(NonEmpty(SecretKeys(s)))
  {
    var xs := NonEmpty(SecretKeys(s));
    SetSizeMeansDistinct(xs);
    var c := SecretsCheck(s);
    assert c.Must? && (c.holds <==> |Elements(xs)| == |xs|);
    assert forall d :: d in [c] <==> d == c;
  }

  /** The validation passes exactly when the settings meet the policy. */
  lemma ValidationPassesIffPolicy(s: ProdSettings)
    ensures Run(Program(s)).failure.None? <==> MeetsProductionPolicy(s)
  {
    RunFailsIffSomeMustFails(Program(s));
    AllMustsHoldAppend(HeadChecks(s), OriginChecks(s.backendCorsOrigins) + AfterOrigins(s));
    AllMustsHoldAppend(OriginChecks(s.backendCorsOrigins), AfterOrigins(s));
    HeadChecksHold(s);
    OriginChecksHold(s.backendCorsOrigins);
    AfterOriginsHold(s);
  }

  /** `s` does not start with `prefix`: they differ at index `i`. */
  lemma NotPrefix(s: string, prefix: string, i: nat)
    requires i < |prefix| && (i >= |s| || s[i] != prefix[i])
    ensures !StartsWith(s, prefix)
  {
    if |prefix| <= |s| {
      assert s[..|prefix|][i] == s[i];
    }
  }

  /** An `http://127.0.0.1` origin fails the validation. */
  lemma LoopbackAddressFails(s: ProdSettings)
    requires "http://127.0.0.1" in s.backendCorsOrigins
    ensures Run(Program(s)).failure.Some?
  {
    LocalhostPrefixIsExempt("http://localhost");
    ValidationPassesIffPolicy(s);
  }

  /** Any origin that starts with `http://localhost` needs no HTTPS, including
      one on another host such as `http://localhost.example.com`, while
      `http://127.0.0.1` does. */
  lemma LocalhostPrefixIsExempt(origin: string)
    requires StartsWith(origin, "http://localhost")
    ensures OriginCheck(origin) == []
    ensures OriginCheck("http://localhost.example.com") == []
    ensures !OriginAllowed("http://127.0.0.1")
    ensures OriginCheck("http://127.0.0.1") == [Must(false, OriginRule + "http://127.0.0.1")]
  {
    assert "http://localhost.example.com"[..16] == "http://localhost";
    NotPrefix("http://127.0.0.1", "http://localhost", 7);
    NotPrefix("http://127.0.0.1", "https://", 4);
  }

  lemma {:induction false} NoMusts(checks: seq<Check>)
    requires forall i :: 0 <= i < |checks| ==> checks[i].Warn?
    ensures MustsOf(checks) == []
  {
    if checks != [] {
      NoMusts(checks[1..]);
    }
  }

  lemma {:induction false} KeyChecksDependOnPresence(s: ProdSettings, t: ProdSettings, names: seq<string>)
    requires forall n :: n in names ==> Present(StripeKey(s, n)) == Present(StripeKey(t, n))
    ensures KeyChecks(s, names) == KeyChecks(t, names)
  {
    if names != [] {
      KeyChecksDependOnPresence(s, t, names[1..]);
    }
  }

  lemma {:induction false} KeyChecksAreMusts(s: ProdSettings, names: seq<string>)
    ensures MustsOf(KeyChecks(s, names)) == KeyChecks(s, names)
  {
    if names != [] {
      KeyChecksAreMusts(s, names[1..]);
    }
  }

  /** The hard rules of the billing section are the key checks. */
  lemma BillingMusts(s: ProdSettings)
    ensures MustsOf(BillingChecks(s)) == if s.billingEnabled then KeyChecks(s, StripeKeyNames) else []
  {
    if s.billingEnabled {
      MustsOfAppend(KeyChecks(s, StripeKeyNames), PrefixWarnings(s));
      NoMusts(PrefixWarnings(s));
      KeyChecksAreMusts(s, StripeKeyNames);
    }
  }

  /** Programs that differ only in the billing section, with the same hard
      rules there, have the same hard rules. */
  lemma SameBillingMusts(h: seq<Check>, o: seq<Check>, c: Check, b1: seq<Check>, b2: seq<Check>, u: seq<Check>)
    requires MustsOf(b1) == MustsOf(b2)
    ensures MustsOf(h + (o + ([c] + (b1 + u)))) == MustsOf(h + (o + ([c] + (b2 + u))))
  {
    MustsOfAppend(b1, u);
    MustsOfAppend(b2, u);
    MustsOfAppend([c], b1 + u);
    MustsOfAppend([c], b2 + u);
    MustsOfAppend(o, [c] + (b1 + u));
    MustsOfAppend(o, [c] + (b2 + u));
    MustsOfAppend(h, o + ([c] + (b1 + u)));
    MustsOfAppend(h, o + ([c] + (b2 + u)));
  }

  /** The Stripe key rules depend only on which keys are set. */
  lemma StripeKeyChecksAlike(s: ProdSettings, t: ProdSettings)
    requires Present(t.stripeSecretKey) == Present(s.stripeSecretKey)
    requires Present(t.stripePublishableKey) == Present(s.stripePublishableKey)
    requires Present(t.stripeWebhookSecret) == Present(s.stripeWebhookSecret)
    ensures KeyChecks(s, StripeKeyNames) == KeyChecks(t, StripeKeyNames)
  {
    forall n | n in StripeKeyNames
      ensures Present(StripeKey(s, n)) == Present(StripeKey(t, n))
    {
    }
    KeyChecksDependOnPresence(s, t, StripeKeyNames);
  }

  /** The program of settings whose other fields are equal differs only in
      the billing section. */
  lemma OnlyBillingDiffers(s: ProdSettings, t: ProdSettings)
    requires t == s.(stripeSecretKey := t.stripeSecretKey, stripePublishableKey := t.stripePublishableKey,
                     stripeWebhookSecret := t.stripeWebhookSecret)
    ensures Program(s) == HeadChecks(s) + (OriginChecks(s.backendCorsOrigins) + ([SecretsCheck(s)] + (BillingChecks(s) + AfterBilling(s))))
    ensures Program(t) == HeadChecks(s) + (OriginChecks(s.backendCorsOrigins) + ([SecretsCheck(s)] + (BillingChecks(t) + AfterBilling(s))))
  {
    assert HeadChecks(t) == HeadChecks(s);
    assert SecretKeys(t) == SecretKeys(s);
    assert AfterBilling(t) == AfterBilling(s);
  }

  /** Rule lists with the same hard rules fail alike. */
  lemma SameMustsSameFailure(p: seq<Check>, q: seq<Check>)
    requires MustsOf(p) == MustsOf(q)
    ensures Run(p).failure == Run(q).failure
  {
    WarningsNeverFail(p);
    WarningsNeverFail(q);
  }

  /** A Stripe key's prefix only warns: two settings that differ only in the
      values of the Stripe keys, with the same keys set, fail alike. */
  lemma StripePrefixesNeverFail(s: ProdSettings, t: ProdSettings)
    requires t == s.(stripeSecretKey := t.stripeSecretKey, stripePublishableKey := t.stripePublishableKey,
                     stripeWebhookSecret := t.stripeWebhookSecret)
    requires Present(t.stripeSecretKey) == Present(s.stripeSecretKey)
    requires Present(t.stripePublishableKey) == Present(s.stripePublishableKey)
    requires Present(t.stripeWebhookSecret) == Present(s.stripeWebhookSecret)
    ensures Run(Program(t)).failure == Run(Program(s)).failure
  {
    BillingMusts(s);
    BillingMusts(t);
    StripeKeyChecksAlike(s, t);
    OnlyBillingDiffers(s, t);
    SameBillingMusts(HeadChecks(s), OriginChecks(s.backendCorsOrigins), SecretsCheck(s),
                     BillingChecks(s), BillingChecks(t), AfterBilling(s));
    SameMustsSameFailure(Program(s), Program(t));
  }

  // ---------------------------------------------------------------------------
  // The procedure
  // ---------------------------------------------------------------------------

  /** Running a suffix of the rules starts with its first rule. */
  lemma RunFrom(checks: seq<Check>, k: nat)
    requires k < |checks|
    ensures Run(checks[k..]) == Step(checks[k], Run(checks[k + 1..]))
  {
    assert checks[k..][1..] == checks[k + 1..];
  }

  /** One origin's rule in front of the later ones. */
  lemma OriginStep(origin: string, later: seq<Check>)
    ensures Run(OriginCheck(origin) + later) ==
      if OriginAllowed(origin) then Run(later) else Report([], Some(ErrorPrefix + (OriginRule + origin)))
  {
    if !StartsWith(origin, "http://localhost") {
      RunCons(OriginCheck(origin)[0], later);
      assert OriginCheck(origin) + later == [OriginCheck(origin)[0]] + later;
    } else {
      assert OriginCheck(origin) + later == later;
    }
  }

  /** The loop over `BACKEND_CORS_ORIGINS`: the error of the first origin that
      is neither `http://localhost…` nor HTTPS. */
  method CheckCorsOrigins(origins: seq<string>) returns (failure: Option<string>)
    ensures Run(OriginChecks(origins)) == Report([], failure)
  {
    var i := 0;
    while i < |origins|
      invariant 0 <= i <= |origins|
      invariant Run(OriginChecks(origins)) == Run(OriginChecks(origins[i..]))
    {
      var origin := origins[i];
      assert origins[i..][1..] == origins[i + 1..];
      assert OriginChecks(origins[i..]) == OriginCheck(origin) + OriginChecks(origins[i + 1..]);
      OriginStep(origin, OriginChecks(origins[i + 1..]));
      if !StartsWith(origin, "http://localhost") {
        if !StartsWith(origin, "https://") {
          return Some(ErrorPrefix + (OriginRule + origin));
        }
      }
      i := i + 1;
    }
    assert origins[i..] == [];
    failure := None;
  }

  /** The loop over the Stripe key names: the error of the first key that is
      not set. */
  method CheckStripeKeys(s: ProdSettings) returns (failure: Option<string>)
    ensures Run(KeyChecks(s, StripeKeyNames)) == Report([], failure)
  {
    var names := StripeKeyNames;
    var j := 0;
    while j < |names|
      invariant 0 <= j <= |names|
      invariant Run(KeyChecks(s, names)) == Run(KeyChecks(s, names[j..]))
    {
      var keyName := names[j];
      var keyValue := StripeKey(s, keyName);
      assert names[j..][1..] == names[j + 1..];
      RunFrom(KeyChecks(s, names[j..]), 0);
      assert KeyChecks(s, names[j..])[1..] == KeyChecks(s, names[j + 1..]);
      if !Present(keyValue) {
        return Some(ErrorPrefix + (keyName + KeyRule));
      }
      j := j + 1;
    }
    assert names[j..] == [];
    failure := None;
  }

  /** The fixed hard rules at the start of `validate_production`: the error
      of the first one that fails. */
  method CheckFixedRules(s: ProdSettings) returns (failure: Option<string>)
    ensures Run(HeadChecks(s)) == Report([], failure)
  {
    HeadRun(s);
    if !(s.environment == "production") {
      return Some(ErrorPrefix + EnvironmentRule);
    }
    if !(!s.debug) {
      return Some(ErrorPrefix + DebugRule);
    }
    if !(!s.dbEcho) {
      return Some(ErrorPrefix + DbEchoRule);
    }
    if !(!s.apiReload) {
      return Some(ErrorPrefix + ApiReloadRule);
    }
    if !(s.sessionCookieSecure) {
      return Some(ErrorPrefix + CookieSecureRule);
    }
    if !(s.sessionCookieSamesite in {"lax", "strict"}) {
      return Some(ErrorPrefix + SameSiteRule);
    }
    if !(s.logFormat == "json") {
      return Some(ErrorPrefix + LogFormatRule);
    }
    if !(StartsWith(s.frontendOrigin, "https://")) {
      return Some(ErrorPrefix + (FrontendRule + s.frontendOrigin));
    }
    if !("*" !in s.backendCorsOrigins) {
      return Some(ErrorPrefix + WildcardRule);
    }
    return None;
  }

  /** The billing section: with `BILLING_ENABLED`, every Stripe key must be
      set, and a key without its live prefix is logged as a warning. */
  method CheckBilling(s: ProdSettings) returns (log: seq<string>, failure: Option<string>)
    ensures Run(BillingChecks(s)) == Report(log, failure)
  {
    log := [];
    failure := None;
    if s.billingEnabled {
      RunAppend(KeyChecks(s, StripeKeyNames), PrefixWarnings(s));
      failure := CheckStripeKeys(s);
      if failure.Some? {
        return;
      }
      var stripeSecret := if Present(s.stripeSecretKey) then s.stripeSecretKey.value else "";
      var stripePublic := if Present(s.stripePublishableKey) then s.stripePublishableKey.value else "";
      var stripeWebhook := if Present(s.stripeWebhookSecret) then s.stripeWebhookSecret.value else "";
      PrefixWarningsRun(s);
      if stripeSecret != "" && !StartsWith(stripeSecret, "sk_live_") {
        log := log + [WarningMark + SecretKeyWarning];
      }
      if stripePublic != "" && !StartsWith(stripePublic, "pk_live_") {
        log := log + [WarningMark + PublishableKeyWarning];
      }
      if stripeWebhook != "" && !StartsWith(stripeWebhook, "whsec_") {
        log := log + [WarningMark + WebhookSecretWarning];
      }
    }
  }

  /** `validate_production`, section by section: it returns the warnings it
      logged and the error it raised. */
  method ValidateProduction(s: ProdSettings) returns (log: seq<string>, failure: Option<string>)
    ensures Report(log, failure) == Run(Program(s))
  {
    ProgramRun(s);
    log := [];
    failure := CheckFixedRules(s);
    if failure.Some? {
      return;
    }
    failure := CheckCorsOrigins(s.backendCorsOrigins);
    if failure.Some? {
      return;
    }
    // the secrets
    RunCons(SecretsCheck(s), []);
    var keys := SecretKeys(s);
    var secrets := NonEmpty(keys);
    if |Elements(secrets)| != |secrets| {
      return log, Some(ErrorPrefix + SecretsRule);
    }
    log, failure := CheckBilling(s);
    if failure.Some? {
      return;
    }
    // the URLs
    AfterBillingRun(s);
    if s.databaseUrl == "" {
      return log, Some(ErrorPrefix + DatabaseUrlRule);
    }
    if s.redisUrl == "" {
      return log, Some(ErrorPrefix + RedisUrlRule);
    }
    // the warnings, logged once every hard rule has passed
    var warningLines := LogWarnings(s);
    log := log + warningLines;
    failure := None;
  }

  /** The closing loop: every collected warning is logged with its mark. */
  method LogWarnings(s: ProdSettings) returns (log: seq<string>)
    ensures Run(FinalChecks(s)) == Report(log, None)
  {
    var warnings := Warnings(s);
    FinalChecksLog(s);
    log := [];
    var w := 0;
    while w < |warnings|
      invariant 0 <= w <= |warnings|
      invariant log == MarkAll(warnings[..w])
    {
      assert warnings[..w + 1] == warnings[..w] + [warnings[w]];
      MarkAllAppend(warnings[..w], [warnings[w]]);
      log := log + [WarningMark + warnings[w]];
      w := w + 1;
    }
    assert warnings[..w] == warnings;
  }

  /** Running a rule in front of others. */
  lemma RunCons(c: Check, rest: seq<Check>)
    ensures Run([c] + rest) == Step(c, Run(rest))
  {
    assert ([c] + rest)[1..] == rest;
  }

  /** The fixed hard rules fail with the first false one's message. */
  lemma HeadRun(s: ProdSettings)
    ensures Run(HeadChecks(s)) == Report([],
      if s.environment != "production" then Some(ErrorPrefix + EnvironmentRule)
      else if s.debug then Some(ErrorPrefix + DebugRule)
      else if s.dbEcho then Some(ErrorPrefix + DbEchoRule)
      else if s.apiReload then Some(ErrorPrefix + ApiReloadRule)
      else if !s.sessionCookieSecure then Some(ErrorPrefix + CookieSecureRule)
      else if s.sessionCookieSamesite !in {"lax", "strict"} then Some(ErrorPrefix + SameSiteRule)
      else if s.logFormat != "json" then Some(ErrorPrefix + LogFormatRule)
      else if !StartsWith(s.frontendOrigin, "https://") then Some(ErrorPrefix + (FrontendRule + s.frontendOrigin))
      else if "*" in s.backendCorsOrigins then Some(ErrorPrefix + WildcardRule)
      else None)
  {
    var h := HeadChecks(s);
    var t8 := [h[8]];
    var t7 := [h[7]] + t8;
    var t6 := [h[6]] + t7;
    var t5 := [h[5]] + t6;
    var t4 := [h[4]] + t5;
    var t3 := [h[3]] + t4;
    var t2 := [h[2]] + t3;
    var t1 := [h[1]] + t2;
    assert h == [h[0]] + t1;
    RunCons(h[8], []);
    assert [h[8]] + [] == t8;
    RunCons(h[7], t8);
    RunCons(h[6], t7);
    RunCons(h[5], t6);
    RunCons(h[4], t5);
    RunCons(h[3], t4);
    RunCons(h[2], t3);
    RunCons(h[1], t2);
    RunCons(h[0], t1);
  }

  /** The Stripe prefix rules log their warnings and never fail. */
  lemma PrefixWarningsRun(s: ProdSettings)
    ensures Run(PrefixWarnings(s)) == Report(
      (if BadPrefix(s.stripeSecretKey, "sk_live_") then [PrefixWarnings(s)[0].line] else [])
      + (if BadPrefix(s.stripePublishableKey, "pk_live_") then [PrefixWarnings(s)[1].line] else [])
      + (if BadPrefix(s.stripeWebhookSecret, "whsec_") then [PrefixWarnings(s)[2].line] else []), None)
  {
    var w := PrefixWarnings(s);
    RunFrom(w, 0); RunFrom(w, 1); RunFrom(w, 2);
    assert w[0..] == w && w[3..] == [];
  }

  /** The URL rules, then the final warnings. */
  lemma AfterBillingRun(s: ProdSettings)
    ensures Run(AfterBilling(s)) ==
      if s.databaseUrl == "" then Report([], Some(ErrorPrefix + DatabaseUrlRule))
      else if s.redisUrl == "" then Report([], Some(ErrorPrefix + RedisUrlRule))
      else Run(FinalChecks(s))
  {
    var u := AfterBilling(s);
    RunFrom(u, 0); RunFrom(u, 1);
    assert u[0..] == u && u[2..] == FinalChecks(s);
  }

  /** `[WarningMark + w for w in ws]` */
  function MarkAll(ws: seq<string>): seq<string> {
    if ws == [] then [] else [WarningMark + ws[0]] + MarkAll(ws[1..])
  }

  lemma {:induction false} MarkAllAppend(a: seq<string>, b: seq<string>)
    ensures MarkAll(a + b) == MarkAll(a) + MarkAll(b)
  {
    if a == [] {
      assert a + b == b;
    } else {
      assert (a + b)[1..] == a[1..] + b;
      MarkAllAppend(a[1..], b);
    }
  }

  /** The final soft rules log the marked warnings and never fail. */
  lemma FinalChecksLog(s: ProdSettings)
    ensures Run(FinalChecks(s)) == Report(MarkAll(Warnings(s)), None)
  {
    var f := FinalChecks(s);
    RunFrom(f, 0);
    RunFrom(f, 1);
    RunFrom(f, 2);
    RunFrom(f, 3);
    assert f[0..] == f && f[4..] == [];
    var a := if !Present(s.sentryDsn) then [SentryWarning] else [];
    var b := if !s.hasAiProviders then [AiProvidersWarning] else [];
    var c := if !s.hasEmail then [EmailWarning] else [];
    var d := if !s.metricsEnabled then [MetricsWarning] else [];
    MarkAllAppend(a + b + c, d);
    MarkAllAppend(a + b, c);
    MarkAllAppend(a, b);
  }
}
