/** The optional value that the collection's lookups return (JavaScript's `undefined` on a miss). */
module Wrappers {

  datatype Option<+T> = None | Some(value: T)
}
