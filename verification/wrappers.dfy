/** The optional-value datatype used for "no video ID", "fetch failed" and
    "no such query parameter". */
module Wrappers {

  datatype Option<+T> = None | Some(value: T)
}
