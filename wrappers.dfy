/** The optional-value wrapper used for a node's color and shape. */
module Wrappers {

  /** Rust's `Option<T>`: an absent value, or a present one. */
  datatype Option<+T> = None | Some(value: T)
}
