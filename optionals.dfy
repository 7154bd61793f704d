/** Optional values: Swift's `T?`, with `None` standing for `nil`. */
module Optionals {

  datatype Option<+T> = None | Some(value: T)
}
