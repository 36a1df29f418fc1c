/** The optional value used for Rust's `Option`. */
module Wrappers {

  datatype Option<T> = None | Some(value: T)
}
