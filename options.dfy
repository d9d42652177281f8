/** Optional values and results, used where the game reads a value that may be absent
    or an operation that may fail. */
module Options {
  datatype Option<T> = None | Some(value: T)

  /** The value as a sequence of zero or one elements. */
  function Listed<T>(o: Option<T>): seq<T>
  {
    if o.Some? then [o.value] else []
  }

  datatype Result<T, E> = Success(value: T) | Failure(error: E)
}
