/** The optional value used for `null | number` in the quiz screen. */
module Wrappers {

  datatype Option<+T> = None | Some(value: T)

}
