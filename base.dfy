/** Optional values and results, used wherever the source returns
    `undefined`/`null` or throws. */
module Base {

  /** `T | null` / `T | undefined` in the source. */
  datatype Option<+T> = None | Some(value: T)

  /** A value, or the fault that a thrown exception would carry. */
  datatype Result<+T, +E> = Success(value: T) | Failure(error: E)
}
