/**
  Failure-carrying datatypes shared by the rest of the model: `Option` for
  readers that either produce a value or do not, and `Result` for operations
  whose failure carries an error the caller can inspect (a Rust `Err`, a
  Python exception).
 */
module Results {

  datatype Option<+T> = None | Some(value: T)

  datatype Result<+T, +E> = Ok(value: T) | Err(error: E)

}
