/** Go's nil-able values (an `error` interface, a `func` field) as an optional value. */
module Wrappers {

  datatype Option<+T> = None | Some(value: T)
}
