/** Presence or absence of a value, used for the suite's optional property and for parse results. */
module Wrappers {

  datatype Option<+T> = None | Some(value: T)
}
