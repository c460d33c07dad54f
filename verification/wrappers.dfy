/** Optional values: `None` stands for JavaScript's `undefined`, `null` or a missing key. */
module Wrappers {
  datatype Option<+T> = None | Some(value: T)
}
