/** The optional value the model uses for JavaScript's `undefined`. */
module Wrappers {

  /** `None` stands for a field or key that is `undefined`; `Some(v)` for one that holds `v`. */
  datatype Option<+T> = None | Some(value: T)
}
