/** A value that may be absent: JavaScript's `undefined`, or a string that does not parse. */
module Wrappers {

  datatype Option<+T> = None | Some(value: T)

}
