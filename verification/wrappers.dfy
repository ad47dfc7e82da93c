/** A nullable value: JavaScript's `undefined` (or a falsy reference) is None. */
module Wrappers {
  datatype Option<+T> = None | Some(value: T)
}
