/** Optional values: a JavaScript value that may be missing (`undefined`, `NaN`). */
module Wrappers {

  datatype Option<+T> = None | Some(value: T)

}
