/** Option and Result: the "value or nothing" and "value or error" shapes
    that Go expresses with nil and with (value, error) pairs. */
module Wrappers {

  datatype Option<+T> = None | Some(value: T)

  datatype Result<+T, +E> = Success(value: T) | Failure(error: E)
}
