/** The optional value the model uses where the modelled code may produce nothing. */
module Wrappers {

  datatype Option<+T> = None | Some(value: T)
}
