/** The optional value used wherever the TypeScript fields admit `null`. */
module Wrappers {

  datatype Option<+T> = None | Some(value: T)
}
