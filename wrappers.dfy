/** Option and Result values, standing in for `null`/`undefined` and thrown errors. */
module Wrappers {

  datatype Option<+T> = None | Some(value: T)

  datatype Result<+R> = Success(value: R) | Failure(error: string)
}
