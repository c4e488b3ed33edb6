/** Option and Result values shared by the analyzer's modules. */
module Wrappers {

  datatype Option<+T> = None | Some(value: T)

  /** Outcome of a step that can fail: the parser yields a tree or an error description. */
  datatype Result<+T, +E> = Ok(value: T) | Err(error: E)
}
