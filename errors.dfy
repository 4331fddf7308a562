// The exceptions the backend throws and catches, and the HTTP status codes
// its controllers answer with.
module Errors {

  /** The exception classes that the services throw and the controllers tell apart. */
  datatype ExceptionKind =
    | SecurityException          // java.lang.SecurityException
    | IllegalArgument            // java.lang.IllegalArgumentException
    | IllegalState               // java.lang.IllegalStateException
    | UsernameNotFound           // Spring's UsernameNotFoundException
    | AccessDenied               // Spring's AccessDeniedException
    | NullPointer                // java.lang.NullPointerException
    | Runtime                    // a bare java.lang.RuntimeException
    | ExpiredJwt                 // io.jsonwebtoken.ExpiredJwtException
    | BadSignature               // io.jsonwebtoken.security.SignatureException
    | MalformedJwt               // io.jsonwebtoken.MalformedJwtException
    | Persistence                // a failure inside the persistence layer

  datatype Exception = Exception(kind: ExceptionKind, message: string)

  /** The response codes the controllers produce. */
  datatype Status =
    | Ok200 | Created201 | NoContent204
    | BadRequest400 | Unauthorized401 | Forbidden403 | NotFound404 | Conflict409
    | InternalServerError500

  function Code(s: Status): (n: int)
    ensures 200 <= n < 600
  {
    match s
    case Ok200 => 200
    case Created201 => 201
    case NoContent204 => 204
    case BadRequest400 => 400
    case Unauthorized401 => 401
    case Forbidden403 => 403
    case NotFound404 => 404
    case Conflict409 => 409
    case InternalServerError500 => 500
  }
}
