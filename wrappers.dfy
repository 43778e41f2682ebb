/** Optional values: `None` stands for JavaScript's `null` (or a thrown exception, where noted). */
module Wrappers {
  datatype Option<+T> = None | Some(value: T)
}
