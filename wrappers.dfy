/** The optional value used for every combo-box selection: `None` is the
    "Any" entry, `Some(v)` a concrete version string. */
module Wrappers {

  datatype Option<+T> = None | Some(value: T)
}
