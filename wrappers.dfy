/** The Option datatype shared by the modules of this model. */
module Wrappers {

  /** `None` stands for the null handle or the absent value of the C program. */
  datatype Option<+T> = None | Some(value: T)
}
