/** The optional-value wrapper used for JavaScript's absent values. */
module Wrappers {

  /** `undefined`/`null` versus a present value. */
  datatype Option<+T> = None | Some(value: T)
}
