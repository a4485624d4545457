/** The optional-value type shared by the encoder and the message-bus models. */
module Wrappers {
  datatype Option<+T> = None | Some(value: T)
}
