/** Types shared by the models. */
module Common {

  /** A value that may be absent: a nullable column, or a query that found no row. */
  datatype Option<+T> = None | Some(value: T)

  /** The outcome of an operation that may raise. */
  datatype Result<+T, +E> = Ok(value: T) | Err(error: E)
}
