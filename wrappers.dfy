/** A value that may be missing: a miss of an intersection test, a line
    that does not scan. */
module Wrappers {
  datatype Option<T> = None | Some(value: T)
}
