/** The stand-in for a nullable object reference, used across the model. */
module Wrappers {

  /** `None` plays the part of a null object reference. */
  datatype Option<+T> = None | Some(value: T)
}
