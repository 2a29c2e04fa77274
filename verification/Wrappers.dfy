/** The option type used for nullable columns and absent values. */
module Wrappers {
  datatype Option<+T> = None | Some(value: T)
}
