/** Optional values: TypeScript's `T | undefined` (optional props, missing attributes). */
module Wrappers {
  datatype Option<+T> = None | Some(value: T)
}
