/** Optional values: `None` stands for JavaScript's `null` and for a numeric parse that yields `NaN`. */
module Wrappers {

  datatype Option<+T> = None | Some(value: T)
}
