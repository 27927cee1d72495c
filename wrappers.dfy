/** Small failure-carrying datatypes shared by every module of the model. */
module Wrappers {

  /** A Go value that may be absent: a nil pointer, a nil slice, or an omitted optional field. */
  datatype Option<+T> = None | Some(value: T)

  /** A Go `error` result: nil (`Pass`) or an error whose `Error()` text is `error`. */
  datatype Outcome = Pass | Fail(error: string)

  /** A Go `(T, error)` pair where exactly one side is meaningful. */
  datatype Result<+T> = Ok(value: T) | Err(error: string)
}
