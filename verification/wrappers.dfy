/** Two plain wrappers used across the model: an optional value for
    JavaScript's `null`/`undefined`, and a result that carries either a value
    or the reason a handler stopped early. */
module Wrappers {

  datatype Option<+T> = None | Some(value: T)

  datatype Result<+R, +E> = Success(value: R) | Failure(error: E)
}
