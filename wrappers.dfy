/** An optional value, used for the serialized references a component may leave unassigned. */
module Wrappers {

  datatype Option<+T> = None | Some(value: T)
}
