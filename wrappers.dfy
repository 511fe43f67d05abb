/** Optional values, for inputs the source reads through Swift optionals. */
module Wrappers {

  datatype Option<+T> = None | Some(value: T)
}
