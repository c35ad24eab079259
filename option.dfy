/** The optional value used wherever the source returns `None` or raises on a missing result. */
module Opt {

  datatype Option<+T> = None | Some(value: T)
}
