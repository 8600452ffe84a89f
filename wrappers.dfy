/** The optional value used for JavaScript's `null`, for absent storage keys and for
    messages that get no reply. */
module Wrappers {
  datatype Option<+T> = None | Some(value: T)
}
