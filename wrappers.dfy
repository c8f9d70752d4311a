/** Option and Result: the absent-or-present values and the thrown-or-returned
    outcomes of the plugin, written as datatypes. */
module Wrappers {

  datatype Option<+T> = None | Some(value: T)

  datatype Result<+R, +E> = Success(value: R) | Failure(error: E)
}
