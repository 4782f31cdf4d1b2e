/** The exception hierarchy of app/core/exceptions.py: every application error
    carries a message, an HTTP status code and a details dict, serialises to a
    four-key JSON object and prints as `Name(status): message`. Each class is
    an `ErrorKind`; the constructors are functions with the classes' default
    arguments, and `isinstance` is the parent chain. */
module Exceptions {
  import opened Text

  /** The JSON values a details dict holds. */
  datatype Json =
    | JNull
    | JBool(b: bool)
    | JInt(i: int)
    | JStr(s: string)
    | JObject(fields: map<string, Json>)

  datatype ErrorKind =
    | DataCleanupException
    | RetryableError
    | ImageProcessingError
    | OCRFailedError
    | QuotaExceededError
    | FeatureNotAvailableError
    | AuthenticationError
    | AuthorizationError
    | ValidationError
    | StripeError
    | StorageError
    | AIProviderError

  /** An instance of one of the classes: its attributes. */
  datatype AppError = AppError(kind: ErrorKind, message: string, statusCode: int, details: map<string, Json>)

  /** `self.__class__.__name__` */
  function Name(kind: ErrorKind): string {
    match kind
    case DataCleanupException => "DataCleanupException"
    case RetryableError => "RetryableError"
    case ImageProcessingError => "ImageProcessingError"
    case OCRFailedError => "OCRFailedError"
    case QuotaExceededError => "QuotaExceededError"
    case FeatureNotAvailableError => "FeatureNotAvailableError"
    case AuthenticationError => "AuthenticationError"
    case AuthorizationError => "AuthorizationError"
    case ValidationError => "ValidationError"
    case StripeError => "StripeError"
    case StorageError => "StorageError"
    case AIProviderError => "AIProviderError"
  }

  /** The class a name denotes, the inverse of `Name`. */
  function KindNamed(name: string): (k: Option<ErrorKind>)
    ensures k.Some? ==> Name(k.value) == name
  {
    if name == "DataCleanupException" then Some(DataCleanupException)
    else if name == "RetryableError" then Some(RetryableError)
    else if name == "ImageProcessingError" then Some(ImageProcessingError)
    else if name == "OCRFailedError" then Some(OCRFailedError)
    else if name == "QuotaExceededError" then Some(QuotaExceededError)
    else if name == "FeatureNotAvailableError" then Some(FeatureNotAvailableError)
    else if name == "AuthenticationError" then Some(AuthenticationError)
    else if name == "AuthorizationError" then Some(AuthorizationError)
    else if name == "ValidationError" then Some(ValidationError)
    else if name == "StripeError" then Some(StripeError)
    else if name == "StorageError" then Some(StorageError)
    else if name == "AIProviderError" then Some(AIProviderError)
    else None
  }

  lemma KindNamedName(kind: ErrorKind)
    ensures KindNamed(Name(kind)) == Some(kind)
  {
  }

  /** The base class of each class (None for the root). */
  function Parent(kind: ErrorKind): Option<ErrorKind> {
    match kind
    case DataCleanupException => None
    case QuotaExceededError => Some(RetryableError)
    case StripeError => Some(RetryableError)
    case StorageError => Some(RetryableError)
    case AIProviderError => Some(RetryableError)
    case _ => Some(DataCleanupException)
  }

  /** The number of steps from a class to the root. */
  function Depth(kind: ErrorKind): nat {
    match Parent(kind)
    case None => 0
    case Some(p) => if p == DataCleanupException then 1 else 2
  }

  /** `isinstance(e, cls)` for an error of class `kind`: `cls` is `kind` or one
      of its ancestors. */
  predicate IsInstanceOf(kind: ErrorKind, cls: ErrorKind)
    decreases Depth(kind)
  {
    kind == cls || (Parent(kind).Some? && Depth(Parent(kind).value) < Depth(kind) && IsInstanceOf(Parent(kind).value, cls))
  }

  /** `details or {}` */
  function DetailsOrEmpty(details: Option<map<string, Json>>): map<string, Json> {
    if details.Some? then details.value else map[]
  }

  // ---------------------------------------------------------------------------
  // The constructors
  // ---------------------------------------------------------------------------

  function NewDataCleanupException(message: string, statusCode: int := 500, details: Option<map<string, Json>> := None): AppError {
    AppError(DataCleanupException, message, statusCode, DetailsOrEmpty(details))
  }

  function NewRetryableError(message: string, statusCode: int := 503, details: Option<map<string, Json>> := None): AppError {
    AppError(RetryableError, message, statusCode, DetailsOrEmpty(details))
  }

  function NewImageProcessingError(message: string, details: Option<map<string, Json>> := None): AppError {
    AppError(ImageProcessingError, message, 422, DetailsOrEmpty(details))
  }

  function NewOCRFailedError(message: string, details: Option<map<string, Json>> := None): AppError {
    AppError(OCRFailedError, message, 422, DetailsOrEmpty(details))
  }

  function NewQuotaExceededError(message: string, details: Option<map<string, Json>> := None): AppError {
    AppError(QuotaExceededError, message, 429, DetailsOrEmpty(details))
  }

  /** `{"feature": feature, "upgrade_required": True}` updated with the
      caller's details: the caller's keys win. */
  function NewFeatureNotAvailableError(message: string, feature: string, details: Option<map<string, Json>> := None): (e: AppError)
    ensures e.details.Keys == {"feature", "upgrade_required"} + DetailsOrEmpty(details).Keys
    ensures forall k :: k in DetailsOrEmpty(details) ==> e.details[k] == DetailsOrEmpty(details)[k]
    ensures "feature" !in DetailsOrEmpty(details) ==> e.details["feature"] == JStr(feature)
    ensures "upgrade_required" !in DetailsOrEmpty(details) ==> e.details["upgrade_required"] == JBool(true)
  {
    AppError(FeatureNotAvailableError, message, 403,
             map["feature" := JStr(feature), "upgrade_required" := JBool(true)] + DetailsOrEmpty(details))
  }

  function NewAuthenticationError(message: string := "Authentication failed"): AppError {
    AppError(AuthenticationError, message, 401, map[])
  }

  function NewAuthorizationError(message: string := "Insufficient permissions"): AppError {
    AppError(AuthorizationError, message, 403, map[])
  }

  /** `{"field": field} if field else {}` */
  function NewValidationError(message: string, field: Option<string> := None): (e: AppError)
    ensures field.Some? && field.value != "" ==> e.details == map["field" := JStr(field.value)]
    ensures field.None? || field.value == "" ==> e.details == map[]
  {
    AppError(ValidationError, message, 400,
             if field.Some? && field.value != "" then map["field" := JStr(field.value)] else map[])
  }

  function NewStripeError(message: string, details: Option<map<string, Json>> := None): AppError {
    AppError(StripeError, message, 402, DetailsOrEmpty(details))
  }

  function NewStorageError(message: string, details: Option<map<string, Json>> := None): AppError {
    AppError(StorageError, message, 500, DetailsOrEmpty(details))
  }

  /** `{"provider": provider, **(details or {})}`: the caller's keys win. */
  function NewAIProviderError(message: string, provider: string, details: Option<map<string, Json>> := None): (e: AppError)
    ensures e.details.Keys == {"provider"} + DetailsOrEmpty(details).Keys
    ensures forall k :: k in DetailsOrEmpty(details) ==> e.details[k] == DetailsOrEmpty(details)[k]
    ensures "provider" !in DetailsOrEmpty(details) ==> e.details["provider"] == JStr(provider)
  {
    AppError(AIProviderError, message, 502, map["provider" := JStr(provider)] + DetailsOrEmpty(details))
  }

  /** The status code each class's constructor fixes (None for the two bases,
      which take one). */
  function FixedStatus(kind: ErrorKind): Option<int> {
    match kind
    case DataCleanupException => None
    case RetryableError => None
    case ImageProcessingError => Some(422)
    case OCRFailedError => Some(422)
    case QuotaExceededError => Some(429)
    case FeatureNotAvailableError => Some(403)
    case AuthenticationError => Some(401)
    case AuthorizationError => Some(403)
    case ValidationError => Some(400)
    case StripeError => Some(402)
    case StorageError => Some(500)
    case AIProviderError => Some(502)
  }

  /** Every constructor builds an error of its own class with its own status. */
  lemma ConstructorsFixTheirStatus(message: string, name: string, details: Option<map<string, Json>>, field: Option<string>)
    ensures NewDataCleanupException(message).statusCode == 500
    ensures NewRetryableError(message).statusCode == 503
    ensures var e := NewImageProcessingError(message, details); e.statusCode == FixedStatus(e.kind).value
    ensures var e := NewOCRFailedError(message, details); e.statusCode == FixedStatus(e.kind).value
    ensures var e := NewQuotaExceededError(message, details); e.statusCode == FixedStatus(e.kind).value
    ensures var e := NewFeatureNotAvailableError(message, name, details); e.statusCode == FixedStatus(e.kind).value
    ensures var e := NewAuthenticationError(message); e.statusCode == FixedStatus(e.kind).value
    ensures var e := NewAuthorizationError(message); e.statusCode == FixedStatus(e.kind).value
    ensures var e := NewValidationError(message, field); e.statusCode == FixedStatus(e.kind).value
    ensures var e := NewStripeError(message, details); e.statusCode == FixedStatus(e.kind).value
    ensures var e := NewStorageError(message, details); e.statusCode == FixedStatus(e.kind).value
    ensures var e := NewAIProviderError(message, name, details); e.statusCode == FixedStatus(e.kind).value
  {
  }

  /** The retryable classes are exactly RetryableError and its four
      subclasses; every class is a DataCleanupException. */
  lemma RetryableClasses(kind: ErrorKind)
    ensures IsInstanceOf(kind, RetryableError) <==>
            kind in {RetryableError, QuotaExceededError, StripeError, StorageError, AIProviderError}
    ensures IsInstanceOf(kind, DataCleanupException)
  {
  }

  // ---------------------------------------------------------------------------
  // Serialisation
  // ---------------------------------------------------------------------------

  /** `to_dict` */
  function ToDict(e: AppError): (j: Json)
    ensures j.JObject? && j.fields.Keys == {"error", "message", "status_code", "details"}
    ensures j.fields["error"] == JStr(Name(e.kind))
    ensures j.fields["message"] == JStr(e.message)
    ensures j.fields["status_code"] == JInt(e.statusCode)
    ensures j.fields["details"] == JObject(e.details)
  {
    JObject(map["error" := JStr(Name(e.kind)), "message" := JStr(e.message),
                "status_code" := JInt(e.statusCode), "details" := JObject(e.details)])
  }

  /** Reads an error back from its dict: the inverse of `to_dict`. */
  function FromDict(j: Json): Option<AppError> {
    if j.JObject? && "error" in j.fields && "message" in j.fields && "status_code" in j.fields && "details" in j.fields
       && j.fields["error"].JStr? && KindNamed(j.fields["error"].s).Some?
       && j.fields["message"].JStr? && j.fields["status_code"].JInt? && j.fields["details"].JObject?
    then Some(AppError(KindNamed(j.fields["error"].s).value, j.fields["message"].s,
                       j.fields["status_code"].i, j.fields["details"].fields))
    else None
  }

  /** The dict of an error determines the error. */
  lemma ToDictRoundTrip(e: AppError)
    ensures FromDict(ToDict(e)) == Some(e)
  {
    KindNamedName(e.kind);
  }

  /** `__str__`: `Name(status): message`. */
  function ToString(e: AppError): (s: string)
    ensures StartsWith(s, Name(e.kind) + "(")
    ensures |s| >= |e.message| && s[|s| - |e.message|..] == e.message
  {
    Name(e.kind) + "(" + IntToString(e.statusCode) + "): " + e.message
  }

  /** The printed form determines class, status and message. */
  lemma ToStringInjective(e1: AppError, e2: AppError)
    requires ToString(e1) == ToString(e2)
    ensures e1.kind == e2.kind && e1.statusCode == e2.statusCode && e1.message == e2.message
  {
    ToStringLayout(e1);
    ToStringLayout(e2);
    NameHasNoParen(e1.kind);
    NameHasNoParen(e2.kind);
    SplitAtFirst(Name(e1.kind), StatusAndMessage(e1), Name(e2.kind), StatusAndMessage(e2), '(');
    KindNamedName(e1.kind);
    KindNamedName(e2.kind);
    StatusAndMessageInjective(e1, e2);
  }

  /** What follows the `(` of the printed form. */
  function StatusAndMessage(e: AppError): string {
    IntToString(e.statusCode) + [')'] + (": " + e.message)
  }

  /** Helper of `ToStringInjective`: the printed form split at its first `(`. */
  lemma ToStringLayout(e: AppError)
    ensures ToString(e) == Name(e.kind) + ['('] + StatusAndMessage(e)
  {
    var i := IntToString(e.statusCode);
    assert Name(e.kind) + "(" + i + "): " + e.message == Name(e.kind) + ['('] + (i + [')'] + (": " + e.message));
  }

  lemma StatusAndMessageInjective(e1: AppError, e2: AppError)
    requires StatusAndMessage(e1) == StatusAndMessage(e2)
    ensures e1.statusCode == e2.statusCode && e1.message == e2.message
  {
    IntToStringHasNoParen(e1.statusCode);
    IntToStringHasNoParen(e2.statusCode);
    SplitAtFirst(IntToString(e1.statusCode), ": " + e1.message, IntToString(e2.statusCode), ": " + e2.message, ')');
    IntToStringInjective(e1.statusCode, e2.statusCode);
    assert e1.message == (": " + e1.message)[2..];
    assert e2.message == (": " + e2.message)[2..];
  }

  /** Two strings split at the first occurrence of `c` agree on both sides. */
  lemma SplitAtFirst(a: string, x: string, b: string, y: string, c: char)
    requires c !in a && c !in b && a + [c] + x == b + [c] + y
    ensures a == b && x == y
  {
    var s := a + [c] + x;
    FirstOccurrence(a, x, c);
    FirstOccurrence(b, y, c);
    if |a| != |b| {
      assert false;
    }
    assert a == s[..|a|] && b == (b + [c] + y)[..|b|];
    assert x == s[|a| + 1..] && y == (b + [c] + y)[|b| + 1..];
  }

  /** In `a + [c] + x` with no `c` in `a`, the first `c` is at `|a|`. */
  lemma FirstOccurrence(a: string, x: string, c: char)
    requires c !in a
    ensures (a + [c] + x)[|a|] == c
    ensures forall k :: 0 <= k < |a| ==> (a + [c] + x)[k] != c
  {
  }

  // `NameHasNoParen` in four parts of three classes each: one lemma over all
  // twelve names is close to the solver's resource limit.
  lemma NameHasNoParen1(kind: ErrorKind)
    requires kind.DataCleanupException? || kind.RetryableError? || kind.ImageProcessingError?
    ensures '(' !in Name(kind)
  {
  }

  lemma NameHasNoParen2(kind: ErrorKind)
    requires kind.OCRFailedError? || kind.QuotaExceededError? || kind.FeatureNotAvailableError?
    ensures '(' !in Name(kind)
  {
  }

  lemma NameHasNoParen3(kind: ErrorKind)
    requires kind.AuthenticationError? || kind.AuthorizationError? || kind.ValidationError?
    ensures '(' !in Name(kind)
  {
  }

  lemma NameHasNoParen4(kind: ErrorKind)
    requires kind.StripeError? || kind.StorageError? || kind.AIProviderError?
    ensures '(' !in Name(kind)
  {
  }

  lemma NameHasNoParen(kind: ErrorKind)
    ensures '(' !in Name(kind)
  {
    if kind.DataCleanupException? || kind.RetryableError? || kind.ImageProcessingError? {
      NameHasNoParen1(kind);
    } else if kind.OCRFailedError? || kind.QuotaExceededError? || kind.FeatureNotAvailableError? {
      NameHasNoParen2(kind);
    } else if kind.AuthenticationError? || kind.AuthorizationError? || kind.ValidationError? {
      NameHasNoParen3(kind);
    } else {
      NameHasNoParen4(kind);
    }
  }

  lemma IntToStringHasNoParen(i: int)
    ensures ')' !in IntToString(i)
  {
    var r := IntToString(i);
    if i < 0 {
      var d := NatToString(-i);
      assert r == "-" + d;
      assert forall k :: 0 <= k < |d| ==> IsDigit(d[k]);
    } else {
      assert AllDigits(r);
    }
  }
}
