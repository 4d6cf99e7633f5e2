/** Failure-compatible wrappers used throughout the model. */
module Wrappers {

  /** An optional value: JavaScript's `undefined`/`null` is `None`. */
  datatype Option<+T> = None | Some(value: T) {
    predicate IsFailure() { None? }

    function PropagateFailure<U>(): Option<U>
      requires None?
    {
      None
    }

    function Extract(): T
      requires Some?
    {
      value
    }
  }

  /** The outcome of an operation that can throw: `Failure` carries what was thrown. */
  datatype Result<+R, +E> = Success(value: R) | Failure(error: E) {
    predicate IsFailure() { Failure? }

    function PropagateFailure<U>(): Result<U, E>
      requires Failure?
    {
      Failure(error)
    }

    function Extract(): R
      requires Success?
    {
      value
    }
  }
}

/** The exceptions the gateway throws, by the class the source instantiates. */
module Exceptions {

  datatype Exception =
    | Unauthorized(message: string)          // UnauthorizedException (401)
    | BadRequest(message: string)            // BadRequestException (400)
    | Conflict(message: string)              // ConflictException (409)
    | InternalServerError(message: string)   // InternalServerErrorException (500)
    | Http(status: int, message: string)     // HttpException(message, status)
    | Plain(message: string)                 // a bare `new Error(message)`
    | Store(code: string, message: string)   // a store error carrying a Prisma error code

  const HTTP_BAD_REQUEST: int := 400
  const HTTP_INTERNAL_SERVER_ERROR: int := 500

  /** The `name` an exception of each class carries. */
  function ClassName(e: Exception): string
  {
    match e
    case Unauthorized(_) => "UnauthorizedException"
    case BadRequest(_) => "BadRequestException"
    case Conflict(_) => "ConflictException"
    case InternalServerError(_) => "InternalServerErrorException"
    case Http(_, _) => "HttpException"
    case Plain(_) => "Error"
    case Store(_, _) => "PrismaClientKnownRequestError"
  }

  /** What interpolating an exception into a template literal gives: `name: message`. */
  function ErrorText(e: Exception): string
  {
    ClassName(e) + ": " + e.message
  }
}
