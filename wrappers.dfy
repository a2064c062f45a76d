/** The optional values of the component: a prop, a store entry or a field
    that may be `undefined`. */
module Wrappers {
  datatype Option<+T> = None | Some(value: T)
}
