/** The optional value used wherever the program works with a nullable reference. */
module Wrappers {

  /** `None` stands for a null reference, `Some(v)` for a present one. */
  datatype Option<+T> = None | Some(value: T)
}
