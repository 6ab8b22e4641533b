/** Optional values: JavaScript's `null` / "no such element". */
module Wrappers {

  datatype Option<+T> = None | Some(value: T)
}
