/** Optional values: `None` stands for a Java `null` or a thrown exception. */
module Wrappers {
  datatype Option<+T> = None | Some(value: T)
}
