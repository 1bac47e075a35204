/** A value that may be absent: a request field or query parameter the client did not send. */
module Wrappers {

  datatype Option<+T> = None | Some(value: T)
}
