/** An optional value, used where a collaborator may be absent. */
module Wrappers {

  datatype Option<+T> = None | Some(value: T)
}
