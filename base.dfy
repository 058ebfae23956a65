/**
 * Values shared by every part of the model: optional values (JavaScript's
 * `undefined`), results that carry one of the framework's HTTP exceptions,
 * and the account roles.
 */
module Base {

  /** `None` stands for JavaScript's `undefined` (or `null`). */
  datatype Option<+T> = None | Some(value: T)

  /** The exceptions the services and guards throw, each with its message. */
  datatype HttpError =
    | BadRequest(message: string)
    | Unauthorized(message: string)
    | Forbidden(message: string)
    | NotFound(message: string)
    | Conflict(message: string)
    | InternalServerError(message: string)
      /** A plain `Error`, as the bot service throws. */
    | PlainError(message: string)
      /** An error raised by the database driver and not caught by the code. */
    | QueryFailed(message: string)
      /** Reading a property of `undefined`. */
    | TypeError(message: string)

  /** A value, or the exception that was thrown instead. */
  datatype Result<+T> = Ok(value: T) | Err(error: HttpError)

  /** The account roles; PENDING is an account that has not been approved yet. */
  datatype Role = PENDING | USER | ADMIN | SUPERADMIN

  /**
   * The string value of each role. The enum's own file is not part of this
   * model; the admin guard compares against 'admin' and 'superadmin', so the
   * values are taken to be the lower-case names.
   */
  function RoleName(r: Role): string
  {
    match r
    case PENDING => "pending"
    case USER => "user"
    case ADMIN => "admin"
    case SUPERADMIN => "superadmin"
  }

  /** Distinct roles have distinct string values. */
  lemma RoleNameInjective(r: Role, s: Role)
    ensures RoleName(r) == RoleName(s) ==> r == s
  {
  }

  /** The message of a NestJS exception created without arguments. */
  const DefaultUnauthorized: string := "Unauthorized"
}
