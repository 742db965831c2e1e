/** Values shared by every module: optional values and the Python exceptions
    that the tunnel core raises or lets through. */
module Common {

  datatype Option<+T> = None | Some(value: T)

  /** The exceptions the core can end with.  `SubprocessError` is what a
      non-zero exit of an external program turns into; the other three are
      the built-in Python errors that the parsing, validation and string
      building code raises. */
  datatype Exception =
    | SubprocessError
    | IndexError
    | ValueError(message: string)
    | TypeError

  /** A value, or the exception raised instead of returning it. */
  datatype Result<+T> = Ok(value: T) | Raise(exc: Exception)

  /** A call that returns nothing: it either completes or raises. */
  datatype Outcome = Done | Raised(exc: Exception)
}
