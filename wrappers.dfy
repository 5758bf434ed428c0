/** Small result types standing in for the source's null references and exceptions. */
module Wrappers {

  /** A value that may be absent; `None` plays the part of a C# null string. */
  datatype Option<+T> = None | Some(value: T)

  /** The outcome of an operation that either completes or raises an error. */
  datatype Outcome<+E> = Pass | Fail(error: E)
}
