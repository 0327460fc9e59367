/** Failure-carrying datatypes shared by every page of the dashboard model.
    An asynchronous API call is modelled by the value its promise settles with. */
module Wrappers {

  /** A value that may be absent (JavaScript `null` / `undefined`). */
  datatype Option<+T> = None | Some(value: T) {

    /** The wrapped value, or `default` when absent (JavaScript `x ?? default`). */
    function GetOr(default: T): T {
      match this
      case Some(v) => v
      case None => default
    }
  }

  /** How an awaited API call settled: resolved with a value, or rejected with
      an error whose `message` may be empty. */
  datatype Result<+T> = Ok(value: T) | Err(message: string)

  /** An awaited API call that resolves with nothing of interest. */
  datatype Outcome = Pass | Fail(message: string)
}
