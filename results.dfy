/** Failure-carrying results, used where the Python code raises. */
module Results {

  /** Either a value or the error that stopped the computation. */
  datatype Result<+T, +E> = Ok(value: T) | Err(error: E)
}
