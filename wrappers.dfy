/** The optional value a Java lookup gives back: `null` becomes None. */
module Wrappers {

  datatype Option<+T> = None | Some(value: T)

}
