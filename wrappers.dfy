/** Option and Result, and the exceptions the service raises, as values. */
module Wrappers {

  datatype Option<+T> = None | Some(value: T) {
    /** `value or default` for an optional value. */
    function GetOr(default: T): T {
      match this
      case Some(v) => v
      case None => default
    }
  }

  /** The Python exception classes that the modelled code raises or lets escape. */
  datatype Failure =
    | KeyError(key: string)            // a missing dict key (`update["message"]`)
    | TypeError(what: string)          // e.g. `{**context}` on a dataclass
    | ValueError(message: string)      // the guards' own `raise ValueError(...)`
    | RuntimeError(message: string)    // `_require` of a missing variable
    | HttpError(status: int)           // `requests.HTTPError` re-raised
    | AuthError                        // token verification rejected the bearer token
    | DecodeError                      // base64 / UTF-8 / JSON decoding failed

  datatype Result<+T> = Ok(value: T) | Err(error: Failure) {
    predicate IsFailure() { Err? }

    function PropagateFailure<U>(): Result<U>
      requires Err?
    {
      Err(error)
    }

    function Extract(): T
      requires Ok?
    {
      value
    }
  }
}
