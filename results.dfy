/** The two shapes the source gives an answer that may be missing or may fail:
    `T | null` becomes `Option<T>`, a promise that may reject becomes `Result<T, E>`. */
module Results {

  datatype Option<+T> = None | Some(value: T)

  datatype Result<+T, +E> = Ok(value: T) | Err(error: E)
}
