/** Stock datatypes shared by the models. */
module Wrappers {
  datatype Option<+T> = None | Some(value: T)

  /** A Go `error` result without its text. */
  datatype Status = Success | Failure
}
