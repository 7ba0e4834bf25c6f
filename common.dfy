/** Optional values and error outcomes shared by all modules. */
module Common {

  /** A value or its absence (`null`/`false` in the source). */
  datatype Option<T> = None | Some(value: T)

  /** A computed value, or the error the source would throw. */
  datatype Result<T, E> = Ok(value: T) | Err(error: E)
}
