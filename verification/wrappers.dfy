/** Option and Result, the two Rust enums the wrapper hands back to its callers. */
module Wrappers {

  /** Rust's `Option<T>`: what `Iterator::next` returns. */
  datatype Option<+T> = None | Some(value: T)

  /** Rust's `Result<T, E>`: what `TranslationUnit::parse` returns. */
  datatype Result<+T, +E> = Ok(value: T) | Err(error: E)
}
