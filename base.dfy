/** Small value types shared by the queue models: a nullable value and an
    outcome that is either a value or the error the source would throw. */
module Base {

  /** A value that may be absent (`null` / `undefined` in the source). */
  datatype Option<T> = None | Some(value: T)

  /** The result of an operation that may throw: `Ok` carries the value the
      source returns, `Err` the error it throws. */
  datatype Result<T, E> = Ok(value: T) | Err(error: E)
}
