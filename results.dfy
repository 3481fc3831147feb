/** Success-or-failure values: the model's stand-in for a Java call that either
    returns or throws. */
module Results {

  datatype Result<+T, +E> = Success(value: T) | Failure(error: E)
}
