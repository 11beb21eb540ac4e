/** Python's `Optional[T]`: a value that is either present or `None`. */
module Wrappers {

  datatype Option<+T> = None | Some(value: T)
}
