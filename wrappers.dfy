/** The optional value used wherever the renderer reads a field that may be
    missing (`undefined` or `null` in the episode data) or returns `null`. */
module Wrappers {

  datatype Option<+T> = None | Some(value: T)
}
