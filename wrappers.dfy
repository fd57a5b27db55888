/** Option for Java's nullable references, Outcome for "returns normally or throws". */
module Wrappers {

  /** A Java reference that may be null: `None` stands for null. */
  datatype Option<+T> = None | Some(value: T)

  /** The outcome of a `void` Java method that may throw: `Pass` returns normally,
      `Fail(e)` throws an exception carrying the code `e`. */
  datatype Outcome<+E> = Pass | Fail(error: E)
}
