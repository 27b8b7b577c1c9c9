/** The optional value used wherever the source tests a JavaScript value for
    presence (`undefined`, a failed `find`, a failed `JSON.parse`). */
module Wrappers {
  datatype Option<+T> = None | Some(value: T)
}
