/** The conventional Some/None datatype, used for the model's partial results. */
module Wrappers {

  datatype Option<+T> = None | Some(value: T)
}
