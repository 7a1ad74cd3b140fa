/** The usual Option datatype, used for values the source may fail to produce. */
module Wrappers {

  datatype Option<+T> = None | Some(value: T)
}
