/** Option, for results that the source may or may not produce. */
module Wrappers {

  datatype Option<+T> = None | Some(value: T)
}
