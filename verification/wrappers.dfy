/** Failure-carrying results for the route handlers.

    Every handler of the server answers either with a JSON body or with an
    HTTP error status.  `Error` names the statuses the core uses; `ServerError`
    is the catch-all 500 that every handler's `catch` block sends, which the
    model uses for the cases where the handler body throws: a property read on
    a document that was not found, a schema validation failure on `save`, a
    duplicate value on a unique index.
 */
module Wrappers {

  datatype Option<+T> = None | Some(value: T) {
    function GetOr(default: T): T {
      match this
      case Some(v) => v
      case None => default
    }
  }

  datatype Error = BadRequest | Unauthorized | Forbidden | NotFound | ServerError

  /** The numeric HTTP status the handler sends for an error. */
  function StatusCode(e: Error): (code: int)
    ensures 400 <= code <= 500
    ensures code == 500 <==> e == ServerError
  {
    match e
    case BadRequest => 400
    case Unauthorized => 401
    case Forbidden => 403
    case NotFound => 404
    case ServerError => 500
  }

  /** Distinct errors are reported with distinct status codes. */
  lemma StatusCodeInjective(a: Error, b: Error)
    requires StatusCode(a) == StatusCode(b)
    ensures a == b
  {
  }

  datatype Result<+T> = Ok(value: T) | Err(error: Error) {
    predicate IsFailure() {
      Err?
    }

    function PropagateFailure<U>(): Result<U>
      requires Err?
    {
      Err(error)
    }

    function Extract(): T
      requires Ok?
    {
      value
    }
  }
}
