/** An optional value: a keyword argument that may be absent, or a directory that may not exist. */
module Optional {

  datatype Option<+T> = None | Some(value: T)
}
