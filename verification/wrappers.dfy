/** The optional value used for Kotlin's nullable results and for lazily filled fields. */
module Wrappers {

  datatype Option<+T> = None | Some(value: T)
}
