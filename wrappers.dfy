/** Option and Result, used for the table's optional predecessor and for the
    resolver's typed failures. */
module Wrappers {
  datatype Option<+T> = None | Some(value: T)

  datatype Result<+T, +E> = Success(value: T) | Failure(error: E)
}
