/** The rows the authentication code reads and writes (users, subscriptions,
    refresh-token sessions) and the HTTP error a handler raises. The ORM
    classes themselves (app.models) are not part of this model; only the
    columns the handlers touch appear here. */
module Models {
  import opened Text

  /** Subscription tiers. `Other` stands for any member of the plan enum that
      the plan-limits table has no row for. */
  datatype PlanType = Free | Pro | ProPlus | Other(name: string)

  datatype SubscriptionStatus = Active | OtherStatus(name: string)

  /** A row of the users table. Times are seconds since the epoch. */
  datatype User = User(
    id: int,
    email: string,
    hashedPassword: string,
    firstName: Option<string>,
    lastName: Option<string>,
    isVerified: bool,
    isActive: bool,
    lastLogin: Option<int>)

  /** A row of the subscriptions table. */
  datatype Subscription = Subscription(userId: int, planType: PlanType, status: SubscriptionStatus)

  /** A row of the sessions table: it keeps the hash of a refresh token, never
      the token itself. */
  datatype Session = Session(
    userId: int,
    refreshTokenHash: string,
    deviceInfo: Option<string>,
    ipAddress: Option<string>,
    expiresAt: int)

  /** FastAPI's `HTTPException(status_code, detail)`. */
  datatype HttpError = HttpError(status: int, detail: string)

  datatype Result<T> = Success(value: T) | Failure(error: HttpError)

  /** The answer of the application's handler for any exception that is not an
      `HTTPException`, with DEBUG off. */
  const InternalServerError := HttpError(500, "Internal server error")
}
