/** Failure-carrying values used in place of Go's nil values and (value, error) pairs, and the ways a run ends abruptly. */
module Wrappers {

  /** A Go field that may be nil: None stands for nil. */
  datatype Option<+T> = None | Some(value: T)

  /** A Go (value, error) pair; the error is kept as the text `err.Error()` would give. */
  datatype Result<+T> = Ok(value: T) | Err(error: string)

  /** How the process can end abruptly: an index out of range on a reply, or log.Fatal. */
  datatype Crash = IndexOutOfRange | Fatal(error: string)
}
