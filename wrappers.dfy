/** The optional value the page uses for "maybe absent" things: `null` image, a failed `find`. */
module Wrappers {

  datatype Option<+T> = None | Some(value: T)
}
