/** The optional value used for the component's nullable state (`null` becomes `None`). */
module Wrappers {
  datatype Option<+T> = None | Some(value: T)
}
