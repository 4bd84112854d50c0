/** Optional values, standing for the nil pointers and nil funcs of the Go code. */
module Wrappers {

  datatype Option<+T> = None | Some(value: T)
}
