/** Optional values: JavaScript's `null` due date and the `NaN` of a failed `parseFloat`. */
module Wrappers {

  datatype Option<+T> = None | Some(value: T)

}
