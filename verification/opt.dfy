/** The optional value used where the source returns a value or `undefined`/`null`. */
module Opt {

  datatype Option<+T> = None | Some(value: T)

}
