/** The optional value used wherever the source returns `undefined` or a query finds no row. */
module Wrappers {

  datatype Option<+T> = None | Some(value: T)
}
