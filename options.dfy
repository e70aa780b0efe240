/** Small wrapper datatypes shared by the whole model. */
module Options {

  /** Rust's `Option<T>`. */
  datatype Option<+T> = None | Some(value: T)

  /** The result of an operation that may panic in the source (an `unwrap` of
      `None` or an out-of-range index): either the value or a panic. */
  datatype Outcome<+T> = Ok(value: T) | Panic
}
