/** Optional values and success/failure results, standing for Python's `None`
    and for exceptions raised by a step. */
module Results {

  datatype Option<+T> = None | Some(value: T)

  datatype Result<+R, +E> = Success(value: R) | Failure(error: E)
}
