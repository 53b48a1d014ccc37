/** Option and Result values: the shapes of Rust's `Option<T>` and `Result<T, E>`. */
module Results {

  datatype Option<+T> = None | Some(value: T)

  datatype Result<+T, +E> = Ok(value: T) | Err(error: E)
}
