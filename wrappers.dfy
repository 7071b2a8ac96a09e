/**
 * Values shared by every part of the model: Java's nullable references as
 * `Option`, the exceptions the library raises as `Exception`, outcomes that may
 * throw as `Result`, and suppliers as functions of their call number.
 */
module Wrappers {

  /** A nullable reference: `None` is Java's `null`. */
  datatype Option<+T> = None | Some(value: T)

  /** The exceptions that the modelled code throws or lets through. */
  datatype Exception =
    | IllegalArgument(message: string)   // java.lang.IllegalArgumentException(message)
    | Runtime(message: string)           // java.lang.RuntimeException(message)
    | Wrapped(cause: Exception)          // java.lang.RuntimeException(cause)
    | JsonProcessing(message: string)    // com.fasterxml.jackson.core.JsonProcessingException
    | ClassNotFound(className: string)   // java.lang.ClassNotFoundException
    | NullPointer                        // java.lang.NullPointerException

  /** The outcome of a call that either returns a value or throws. */
  datatype Result<+T> = Success(value: T) | Failure(error: Exception)

  /** The outcome of a `void` call that may throw. */
  datatype Outcome = Pass | Fail(error: Exception)

  /**
   * A `java.util.function.Supplier`: the outcome of the k-th call (counting
   * from 0) to the supplier is `s(k)`, so a supplier may hand out a different
   * object, or null, on every call, or throw.
   */
  type Supplier<T> = nat -> Result<Option<T>>
}
