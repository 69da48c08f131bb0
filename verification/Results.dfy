/** Errors of the service and the result types that carry them. */
module Results {

  datatype Option<+T> = None | Some(value: T)

  /** One constructor per distinguishable exception of the domain, the use cases and the database. */
  datatype Error =
    | EmailRequired | EmailNotText | EmailFormat
    | PasswordNotText | PasswordTooShort | PasswordTooLong
    | EmailAlreadyVerified | EmailNotVerified | AccountDeactivated
    | InvalidPassword | WrongOldPassword | SamePassword
    | TokenPurposeMismatch | TokenInvalid | TokenAlreadyReplaced | RefreshTokenReuse
    | InvalidAccessToken
    | UserNotFound | OneTimeTokenNotFound | RefreshTokenNotFound | UserAlreadyExists
    | ConcurrencyError | IntegrityError | MultipleResultsFound
    | MissingType | UnknownType | SchemaMismatch

  /** A value or the exception raised instead; usable with `:-`. */
  datatype Result<+T> = Ok(value: T) | Err(error: Error) {
    predicate IsFailure() {
      Err?
    }

    function PropagateFailure<U>(): Result<U>
      requires Err?
    {
      Err(error)
    }

    function Extract(): T
      requires Ok?
    {
      value
    }
  }

  /** What a call without a return value ends in. */
  datatype Outcome = Done | Raised(error: Error) {
    predicate IsFailure() {
      Raised?
    }

    function PropagateFailure(): Outcome
      requires Raised?
    {
      this
    }
  }

  /** An argument as it arrives: the DTOs skip validation, so it need not be text. */
  datatype Argument = Null | NotText | Text(text: string)
}
