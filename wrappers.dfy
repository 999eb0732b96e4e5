/** The optional-value datatype shared by every module of the model. */
module Wrappers {

  /** A value that may be absent: an omitted JSON field, a failed parse,
      a missing map entry. */
  datatype Option<+T> = None | Some(value: T)
}
