/** The optional value used wherever the template tree leaves a field null or undefined. */
module Wrappers {

  datatype Option<+T> = None | Some(value: T)
}
