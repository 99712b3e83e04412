/** The Option datatype, standing for a nullable or possibly-undefined value. */
module Wrappers {
  datatype Option<+T> = None | Some(value: T)
}
