/** The optional value used for "no selection" and for a form submission that emits nothing. */
module Wrappers {
  datatype Option<+T> = None | Some(value: T)
}
