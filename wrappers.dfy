/** A value that may be absent: TypeScript's optional members and failed lookups. */
module Wrappers {

  datatype Option<+T> = None | Some(value: T)
}
