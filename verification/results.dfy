/** Success/failure carriers shared by every module of the model. */
module Results {

  /** An optional value: a missing dictionary key, an unset override. */
  datatype Option<+T> = None | Some(value: T)

  /** The outcome of a computation that can raise: either its value or the
      error it raised. */
  datatype Result<+T, +E> = Success(value: T) | Failure(error: E)
}
