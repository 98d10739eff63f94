/** Small value wrappers shared by the whole model. */
module Wrappers {

  /** An optional value: a field that may be absent (`undefined`). */
  datatype Option<+T> = None | Some(value: T) {
    /** The wrapped value, or `default` when absent. */
    function GetOr(default: T): T {
      match this
      case Some(v) => v
      case None => default
    }
  }

  /** What an HTTP handler answers: a JSON body with status 200, or an
      error status with the error message it puts in the body. */
  datatype Reply<+T> = Ok(body: T) | Fail(status: nat, error: string)
}
