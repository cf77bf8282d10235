/** Shared wrappers: optional values, fallible results and the outcome of a request handler. */
module Common {

  /** A value that may be absent; stands for a nil pointer or a missing map entry. */
  datatype Option<+T> = None | Some(value: T) {
    function GetOr(default: T): T {
      match this
      case Some(v) => v
      case None => default
    }
  }

  /** A value or the text of a Go `error`. */
  datatype Result<+T> = Ok(value: T) | Err(error: string)

  /**
   * What a path handler hands back to the host:
   *  - Reply(v): a response (or none) with a nil error;
   *  - ErrorResponse(m): a `logical.ErrorResponse(m)` returned with a nil error;
   *  - Failure(m): a nil response and a non-nil error whose text is m;
   *  - Panic(r): the handler dereferences nil or fails a type assertion, so the Go code panics.
   */
  datatype Outcome<+T> = Reply(value: T) | ErrorResponse(message: string) | Failure(message: string) | Panic(reason: string)

  /** Whether a write request creates or updates the path it names. */
  datatype Operation = Create | Update

  /** A dynamically typed value, as held in a `map[string]interface{}` of a response or a lease. */
  datatype Value = Str(s: string) | Int(n: int) | Schema(description: string) | Nil
}
