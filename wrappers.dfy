/** Failure-carrying results used across the model in place of Python exceptions. */
module Wrappers {

  /** A value that may be absent; `None` stands for the exception the source raises. */
  datatype Option<+T> = None | Some(value: T)

  /** The outcome of an operation run for its effects: it either completes or raises `error`. */
  datatype Outcome<+E> = Pass | Fail(error: E)
}
