/** Shared vocabulary of the model: nullable references, results, and the
    exceptions the logger's members throw. */
module Base {

  /** A C# nullable reference (`string?`, a nullable delegate, ...). */
  datatype Nullable<+T> = Null | NotNull(value: T)

  /** The value of a member that either returns normally or throws. */
  datatype Result<+T, +E> = Success(value: T) | Failure(error: E)

  /** The outcome of a `void` member that either returns normally or throws. */
  datatype Outcome<+E> = Pass | Fail(error: E)

  /** The exceptions the core throws, with the argument names and messages
      the source passes to them. */
  datatype Fault =
    | ArgumentNull(paramName: string)
    | Argument(message: string, argumentName: Nullable<string>)
    | ArgumentOutOfRange(paramName: string)
    | ObjectDisposed(objectName: string)
    | NullReference
    | StorageFailure
}
