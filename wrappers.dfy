/** Optional values, results, and the Python exceptions the request pipeline can raise. */
module Wrappers {

  datatype Option<+T> = None | Some(value: T)

  /** The exceptions that escape `App.__call__` (every one of them fails the request). */
  datatype Error =
    | KeyError(key: string)             // a missing key in the environ or in a header view
    | UnknownStatus(status: Option<int>) // `HTTP_STATUSES[res.status]` has no entry
    | TypeError                         // an operation applied to a value of the wrong type
    | CodecError(reason: string)        // a codec failure that is not caught (unknown charset, unserialisable value, deep JSON)
    | HandlerError                      // the handler itself raised

  datatype Result<+T> = Ok(value: T) | Err(error: Error)

  /** The outcome of a statement that produces no value. */
  datatype Outcome = Pass | Fail(error: Error)
}
