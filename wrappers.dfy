/** The optional value used for a nullable field (`editingId`, a scheduling
    call that answers `null`). */
module Wrappers {
  datatype Option<+T> = None | Some(value: T)
}
