/** The optional value used wherever a resolution may find nothing. */
module Wrappers {

  datatype Option<+T> = None | Some(value: T)
}
