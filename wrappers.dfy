/** Optional values, standing in for the nullable references and java.util.Optional of the source. */
module Wrappers {
  datatype Option<T> = None | Some(value: T)
}
