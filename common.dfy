/** Value types shared by the dashboard script and the backend. */
module Common {

  /** A JSON value that may be `null` (a nullable database column, a failed `find`). */
  datatype Option<+T> = None | Some(value: T)

  /** The outcome of an operation that can raise: a value or an error. */
  datatype Result<+T, +E> = Ok(value: T) | Err(error: E)

  /** The two transmission variants the dashboard compares; any other source text is neither. */
  const StandardSource: string := "standard"
  const EnhancedSource: string := "enhanced"
}
