/** Optional values, standing in for java.util.Optional and for a nullable result. */
module Wrappers {

  datatype Option<+T> = None | Some(value: T)
}
