/** Optional values: the model's rendering of a TypeScript `T | undefined`. */
module Wrappers {

  datatype Option<+T> = None | Some(value: T)
}
