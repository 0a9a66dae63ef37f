/** Optional values: `None` stands for a TypeScript property or argument left `undefined`. */
module Wrappers {
  datatype Option<+T> = None | Some(value: T)
}
