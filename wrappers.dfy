/** The optional value used for the store's optional fields (`error?`, `filtering?`, `name?`, ...). */
module Wrappers {

  datatype Option<+T> = None | Some(value: T)
}
