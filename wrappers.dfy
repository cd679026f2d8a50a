/** Small value wrappers shared by the other modules. */
module Wrappers {

  /** An optional value: a JavaScript `undefined`/`null`, or a result that may be missing. */
  datatype Option<+T> = None | Some(value: T)

  /** The outcome of an operation that either returns normally or throws. */
  datatype Outcome<+E> = Pass | Fail(error: E)
}
