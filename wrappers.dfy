/** The optional value JavaScript writes as `T | undefined` or `T | null`. */
module Wrappers {
  datatype Option<T> = None | Some(value: T)
}
