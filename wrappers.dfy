/** Option values: `None` stands for JavaScript's `undefined`/`null` (or a parse that produced NaN). */
module Wrappers {

  datatype Option<+T> = None | Some(value: T)
}
