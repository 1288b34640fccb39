/** An optional value, standing for a DOM attribute or element that may be absent. */
module Wrappers {

  datatype Option<+T> = None | Some(value: T)

}
