/** The optional value used for "or null" results and for oracle hits. */
module Options {
  datatype Option<T> = None | Some(value: T)
}
