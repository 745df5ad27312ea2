/** Optional values and the service's exceptions, as values. */
module Outcomes {

  /** A Java reference that may be null: `None` stands for null. */
  datatype Option<+T> = None | Some(value: T)

  /** One constructor per exception the account operations raise. */
  datatype Failure =
    | UserAlreadyExists
    | UserNotVerified(newEmailSent: bool)
    | EmailFailure
    | EmailNotFound
      // The store refuses to save a verification token whose string is
      // already in the table (the unique constraint on its token column).
    | TokenConflict
      // The token library refuses a password-reset token.
    | InvalidResetToken

  /** A returned value, or the exception thrown instead. */
  datatype Result<+T> = Ok(value: T) | Err(error: Failure)

  /** A void call that returned normally, or the exception it threw. */
  datatype Outcome = Pass | Fail(error: Failure)
}
