/** Values that carry a failure, shared by the session and analysis models. Option stands for a Java
    reference that may be null or an Optional that may be empty; Result for a value or the exception
    that stopped its computation; Outcome for a void method that either returns or throws. */
module Results {

  datatype Option<+T> = None | Some(value: T)

  datatype Result<+T, +E> = Success(value: T) | Failure(error: E)

  datatype Outcome<+E> = Pass | Fail(error: E)
}
