/** The `undefined`-or-value results of the relay, as an option type. */
module Wrappers {
  datatype Option<+T> = None | Some(value: T)
}
