/** Option and Result, the failure-carrying values the model returns where the
    program returns `Option`, `Result` or aborts in the middle of an algorithm. */
module Wrappers {

  datatype Option<+T> = None | Some(value: T)

  datatype Result<+R, +E> = Ok(value: R) | Err(error: E)
}
