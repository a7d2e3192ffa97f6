/** Optional values and results: the model's stand-in for Go's nil piece
    pointers and for `(value, error)` returns. */
module Optional {

  datatype Option<+T> = None | Some(value: T)

  datatype Result<+T, +E> = Success(value: T) | Failure(error: E)
}
