/** Java-level notions the broker code relies on: null references and the
    exceptions its operations can throw. */
module Java {

  /** A Java reference that may be null. */
  datatype Nullable<+T> = Null | Val(value: T)

  /** A java.lang.String reference. */
  type JString = Nullable<string>

  /** The exceptions the modelled code can raise. */
  datatype JavaException =
    | NoSuchElement(message: JString)      // java.util.NoSuchElementException(message)
    | IllegalState(duplicateKey: JString)  // Collectors.toMap on a repeated key
    | NullPointer                          // dereferencing a null field

  /** A value, or the exception thrown instead of returning it. */
  datatype Result<+T> = Success(value: T) | Failure(error: JavaException)

  /** Normal completion of a void operation, or the exception it threw. */
  datatype Outcome = Pass | Fail(error: JavaException)
}
