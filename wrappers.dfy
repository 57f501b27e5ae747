/** Optional values: Swift's `T?` and Python's `T | None`. */
module Wrappers {

  datatype Option<+T> = None | Some(value: T)
}
