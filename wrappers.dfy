/** Option, for values the source represents as null or as "no action". */
module Wrappers {
  datatype Option<+T> = None | Some(value: T)
}
