// The optional values used throughout: SQL columns that may be NULL and lookups that may miss.
module Options {

  datatype Option<+T> = None | Some(value: T)
}
