/** Small helper datatypes shared by the model's modules. */
module Wrappers {

  /** An optional value: `None` stands for JavaScript's `undefined`. */
  datatype Option<T> = None | Some(value: T)
}
