/** Optional values and keyed-lookup outcomes shared by the other modules. */
module Wrappers {

  datatype Option<+T> = None | Some(value: T)

  /** Python's `KeyError`, carrying the key that was not found. */
  datatype KeyError = KeyError(key: string)

  /** The value of a subscript expression, or the `KeyError` it raises. */
  datatype Result<+R> = Success(value: R) | Failure(error: KeyError)
}
