/** The optional value used across the models for a nullable column or an absent field. */
module Wrappers {
  datatype Option<+T> = None | Some(value: T)
}
