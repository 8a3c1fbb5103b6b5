/** Shared value types. */
module Basics {
  datatype Option<+T> = None | Some(value: T)

  /** Clock readings are integers; a run never sees its clock go back. */
  type Time = int
}
