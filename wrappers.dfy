/** The optional value the models below use where TypeScript has `undefined` or `null`. */
module Wrappers {

  datatype Option<+T> = None | Some(value: T)
}
