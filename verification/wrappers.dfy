/** The optional value used for the counter's callback slots. */
module Wrappers {

  datatype Option<+T> = None | Some(value: T)
}
