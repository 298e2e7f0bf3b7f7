/** A nullable value: the JavaScript `null` of a state slot or a ref. */
module Wrappers {
  datatype Option<+T> = None | Some(value: T)
}
