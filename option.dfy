/** Rust's `Option`, as the GUI state and its parsers use it. */
module Optional {

  datatype Option<T> = None | Some(value: T)

}
