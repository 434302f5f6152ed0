/** The conventional optional value, shared by the backend and frontend models. */
module Wrappers {

  datatype Option<+T> = None | Some(value: T)

}
