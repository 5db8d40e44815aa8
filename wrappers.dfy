/** Optional values: the model's stand-in for a nullable Objective-C argument. */
module Wrappers {

  datatype Option<+T> = None | Some(value: T)
}
