/** The optional value used wherever the source has a nullable result or an absent record. */
module Wrappers {

  datatype Option<+T> = None | Some(value: T)
}
