/** The optional value used throughout the model: a nullable column, a missing
    request field, a cache miss. */
module Wrappers {
  datatype Option<T> = None | Some(value: T)
}
