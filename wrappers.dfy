/** Small failure-aware wrappers shared by the modules of this model. */
module Wrappers {

  /** An optional value: `None` stands for a JavaScript `undefined` (or `null`) slot. */
  datatype Option<+T> = None | Some(value: T)

  /** How a JavaScript call completes: with a value, or by throwing. */
  datatype Completion<+T> = Normal(value: T) | Throw(error: string)
}
