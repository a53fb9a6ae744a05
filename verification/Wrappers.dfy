/** The optional value every component returns where the source returns `undefined`, `null` or `None`. */
module Wrappers {
  datatype Option<+T> = None | Some(value: T)
}
