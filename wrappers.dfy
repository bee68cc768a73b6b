/** The optional value that the browser APIs of the page return as `null`
    (a missing query parameter, an element that `querySelector` does not find). */
module Wrappers {

  datatype Option<+T> = None | Some(value: T)
}
