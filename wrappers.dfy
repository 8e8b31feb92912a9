/** Optional values, standing for the nullable foreign keys and first-match queries of the store. */
module Wrappers {

  datatype Option<+T> = None | Some(value: T)

}
