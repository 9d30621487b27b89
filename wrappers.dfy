/** The optional value shared by the server and client models: a JSON field that may be
    left out, a header that may be absent, a lookup that may find nothing. */
module Wrappers {

  datatype Option<+T> = None | Some(value: T)
}
