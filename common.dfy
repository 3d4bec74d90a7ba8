/** Types shared by the schemas and the serving core. */
module Common {

  /** A value that may be absent (Python's `None`, or a missing dictionary key). */
  datatype Option<+T> = None | Some(value: T)

  /** The outcome of an operation that may raise: a value, or the exception it raised. */
  datatype Result<+T, +E> = Ok(value: T) | Err(error: E)

  /** One feature vector: a list of floats. */
  type Features = seq<real>
}
