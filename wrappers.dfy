/** The optional value shared by the dispatcher and the order repository:
    JavaScript's `undefined` (a missing registry entry, a failed `find`). */
module Wrappers {
  datatype Option<T> = None | Some(value: T)
}
