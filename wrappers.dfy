/** Optional values: the model of Objective-C's nullable object references. */
module Wrappers {

  datatype Option<+T> = None | Some(value: T)
}
