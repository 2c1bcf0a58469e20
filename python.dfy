/** Python-level values the weather collector depends on: `None`, the
    exceptions its code can raise, and how an f-string renders an optional
    string. */
module Python {

  /** A Python value that is either `None` or a string (or a real number). */
  datatype Option<T> = None | Some(value: T)

  /** The exceptions the collector's code paths can raise. */
  datatype PyException = AttributeError | TypeError | ValueError | ZeroDivisionError

  /** The outcome of a Python expression: a value, or the exception it raises. */
  datatype Outcome<T> = Ok(value: T) | Raise(exc: PyException)

  /** `f"{v}"` for a `str` or `None`: `None` renders as the text "None". */
  function Str(v: Option<string>): string {
    match v
    case None => "None"
    case Some(x) => x
  }
}
