/** The optional value used throughout the model: `None` stands for JavaScript's
    `undefined` (or an absent answer), `Some(v)` for a present value. */
module Wrappers {

  datatype Option<+T> = None | Some(value: T)
}
