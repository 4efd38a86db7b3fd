/** `T | undefined` and `T | null` values of the client, as an option type. */
module Wrappers {

  datatype Option<+T> = None | Some(value: T)
}
