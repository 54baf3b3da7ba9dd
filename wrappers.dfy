/** Optional values: `None` stands for Go's nil where the source returns a nilable value. */
module Wrappers {
  datatype Option<+T> = None | Some(value: T)
}
