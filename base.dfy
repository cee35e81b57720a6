/**
 * Vocabulary shared by the whole model: optional values, the exceptions the
 * modelled Python code raises or lets through, and the outcome of a call that
 * may raise.
 */
module Base {

  /** A value that may be missing: Python's `None` or a value. */
  datatype Option<+T> = None | Some(value: T)

  /** The exceptions that reach the modelled code. */
  datatype Exception =
    | ClientError(code: string, message: string)   // botocore's ClientError, with the provider's error code
    | KeyError(key: string)                         // a missing dictionary key
    | TypeError(message: string)                    // e.g. iterating over None
    | Failure(message: string)                      // an `Exception(...)` raised by s3lify itself

  /** The outcome of a call: its value, or the exception it raised. */
  datatype Result<+T> = Ok(value: T) | Raise(exc: Exception)
}
