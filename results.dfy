/** Error-carrying return values, used where the source raises an exception
    or produces a non-finite number instead of a value. */
module Results {

  datatype Option<+T> = None | Some(value: T)

  datatype Result<+T, +E> = Success(value: T) | Failure(error: E)
}
