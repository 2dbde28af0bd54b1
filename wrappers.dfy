/** An optional value: JavaScript's `undefined` (or a non-numeric result) on one side,
    a present value on the other. */
module Wrappers {
  datatype Option<+T> = None | Some(value: T)
}
