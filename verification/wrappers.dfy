/** Small helper datatypes shared by the modules of this model. */
module Wrappers {

  /** A value that may be absent: stands for C#'s nullable value types and
      nullable references (`T?`). */
  datatype Option<+T> = None | Some(value: T)
}
