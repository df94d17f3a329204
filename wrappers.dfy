/** Failure-carrying values shared by every module of the model. */
module Wrappers {

  /** A value that may be absent: JavaScript `undefined`/`null` or SQL NULL. */
  datatype Option<+T> = None | Some(value: T) {
    function GetOr(default: T): T {
      match this
      case Some(v) => v
      case None => default
    }
  }

  /** What a request handler or middleware answers: either it passes a value on
      (`next()` or a JSON body), or it ends the request with an HTTP status and the
      `error` text of its JSON body. */
  datatype Response<+T> = Ok(value: T) | Fail(status: int, error: string)
}
