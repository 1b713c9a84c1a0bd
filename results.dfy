/** The error-or-value result used by every fallible operation of the model. */
module Results {

  /** Rust's `Result<T, E>`; the theory code uses the unit error `()`. */
  datatype Result<+T, +E> = Ok(value: T) | Err(error: E)
}
