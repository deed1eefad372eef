/** Outcome types shared by the model: Go's `(value, error)` pairs become a `Result`. */
module Results {

  datatype Option<+T> = None | Some(value: T)

  /** A Go call that yields either a value or an error. */
  datatype Result<+T, +E> = Ok(value: T) | Err(error: E)
}
