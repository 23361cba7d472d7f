/** Option and Result: the "nothing here" and "this raised" outcomes of the model. */
module Basics {

  /** Python's `None` versus a present value. */
  datatype Option<+T> = None | Some(value: T)

  /** A call that returned `value`, or one that raised `error`. */
  datatype Result<+T, +E> = Ok(value: T) | Err(error: E)
}
