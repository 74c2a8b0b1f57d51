/** An optional value: a JavaScript `null`/missing field, a Python `None`, an absent key. */
module Wrappers {

  datatype Option<+T> = None | Some(value: T)

}
