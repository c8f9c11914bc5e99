/** Failure-carrying values shared by every module of the model. */
module Wrappers {

  datatype Option<T> = None | Some(value: T)

  /** A Go `(T, error)` pair: either a value, or the text of the returned error. */
  datatype Result<T> = Ok(value: T) | Err(error: string)

  /** A step that either lets the program go on with a value, or logs a message and
      ends the process with `os.Exit(1)`; the log text is kept as `log`. */
  datatype Process<T> = Running(value: T) | Exited(log: string)
}
