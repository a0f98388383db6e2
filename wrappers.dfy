/** Optional values (Java's nullable references) and the outcome of a call that may throw. */
module Wrappers {

  /** `None` stands for a Java `null`. */
  datatype Option<T> = None | Some(value: T)

  /** `Fail` stands for an exception thrown by the call before it changed anything. */
  datatype Outcome<E> = Pass | Fail(error: E)
}
