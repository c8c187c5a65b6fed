/** Optional values, standing for the null pointers and empty `unique_ptr`s of the program. */
module Wrappers {

  datatype Option<+T> = None | Some(value: T)

}
