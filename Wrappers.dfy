/** Stock optional-value wrapper used across the model. */
module Wrappers {

  /** `None` stands for JavaScript's `null` / `undefined`; `Some(v)` for a present value. */
  datatype Option<+T> = None | Some(value: T)
}
