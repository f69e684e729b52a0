/** Answers that may be an error. */
module Results {

  datatype Result<+T, +E> = Ok(value: T) | Err(error: E)
}
