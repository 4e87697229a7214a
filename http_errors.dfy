/**
 * The error values that travel through the pipeline to the error handler: the HTTP error
 * classes (each with its status code), the validator's error with its list of issues, and
 * plain errors (from the store or the token signer) that carry no status code.
 */
module HttpErrors {
  const OK: nat := 200
  const BadRequestCode: nat := 400
  const UnauthorizedCode: nat := 401
  const ForbiddenCode: nat := 403
  const NotFoundCode: nat := 404
  const ConflictCode: nat := 409
  const PreconditionFailedCode: nat := 412
  const UnprocessableEntityCode: nat := 422
  const InternalServerErrorCode: nat := 500

  /** Node's table of reason phrases, for the codes this API produces; any other code has none. */
  function ReasonPhrase(code: nat): string
  {
    match code
    case 200 => "OK"
    case 400 => "Bad Request"
    case 401 => "Unauthorized"
    case 403 => "Forbidden"
    case 404 => "Not Found"
    case 409 => "Conflict"
    case 412 => "Precondition Failed"
    case 422 => "Unprocessable Entity"
    case 500 => "Internal Server Error"
    case _ => ""
  }

  /** What a schema check found wrong with one value. */
  datatype IssueCode =
    | InvalidType
    | InvalidEnumValue
    | InvalidString(validation: string)
    | TooSmall(minimum: nat, exact: bool)
    | TooBig(maximum: nat, exact: bool)

  /** One field-level violation: where (the key path) and what. */
  datatype Issue = Issue(path: seq<string>, code: IssueCode)

  datatype Error =
    | HttpError(statusCode: nat, message: string, stack: string)
    | ValidationError(issues: seq<Issue>, stack: string)
    | PlainError(message: string, stack: string)

  /** `err.statusCode`, with 0 standing for "absent" (both are falsy in the error handler's test). */
  function StatusCodeOf(err: Error): nat
  {
    if err.HttpError? then err.statusCode else 0
  }

  /** `err.message`; a validation error's own message is never shown, so it is left empty. */
  function MessageOf(err: Error): string
  {
    match err
    case HttpError(_, message, _) => message
    case ValidationError(_, _) => ""
    case PlainError(message, _) => message
  }

  /** An HTTP error class raised without a message: its message is the status's reason phrase. */
  function Raise(code: nat): (err: Error)
    ensures StatusCodeOf(err) == code && MessageOf(err) == ReasonPhrase(code)
  {
    HttpError(code, ReasonPhrase(code), "")
  }

  function BadRequest(): Error { Raise(BadRequestCode) }
  function Unauthorized(): Error { Raise(UnauthorizedCode) }
  function Forbidden(): Error { Raise(ForbiddenCode) }
  function Conflict(): Error { Raise(ConflictCode) }
  function UnprocessableEntity(): Error { Raise(UnprocessableEntityCode) }

  /** PreconditionFailed raised with the token verifier's message. */
  function PreconditionFailed(message: string): Error
  {
    HttpError(PreconditionFailedCode, message, "")
  }
}
